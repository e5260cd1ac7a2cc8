/**
 The bar-by-bar trade simulation of apps/worker/scripts/investigateSep21SqueezeLosses.ts. The strategy, the regime
 filter and the stop proposal are arbitrary functions of the bar.
 */
module Simulator {
  import opened Wrappers
  import opened Candles

  const WARMUP: nat := 80
  const INVALIDATION_BARS: nat := 5

  datatype Levels = Levels(stop: real, target: real)

  /** eligible: the regime is tradable; buys: the strategy's answer, given the bars since the last signal;
      propose: the stop and target, if any; channel: the Donchian high at the bar. */
  datatype Market = Market(
    bars: seq<Candle>,
    eligible: nat -> bool,
    buys: (nat, Option<nat>) -> bool,
    propose: nat -> Option<Levels>,
    channel: nat -> Option<real>)

  datatype Variant = Variant(lookback: int, tolerance: real, invalidation: bool)

  datatype Reason = StopLoss | TakeProfit | Invalidation

  datatype Position = Position(entry: nat, price: real, levels: Levels, channel: Option<real>)

  datatype Exit = Exit(price: real, reason: Reason)

  datatype Trade = Trade(position: Position, bar: nat, exit: Exit, pnl: real)

  datatype Failure = Failure(entry: nat, price: real)

  datatype State = State(trades: seq<Trade>, last: Option<nat>, failures: seq<Failure>, open: Option<Position>)

  // ----- one bar -----

  /** How bar i closes a position: the stop first, then the target, then a close back inside the channel. */
  function ExitOf(m: Market, v: Variant, p: Position, i: nat): Option<Exit>
    requires i < |m.bars|
  {
    var c := m.bars[i];
    if c.low <= p.levels.stop then Some(Exit(p.levels.stop, StopLoss))
    else if c.high >= p.levels.target then Some(Exit(p.levels.target, TakeProfit))
    else if v.invalidation && p.channel.Some? && i - p.entry <= INVALIDATION_BARS && c.close < p.channel.value
    then Some(Exit(c.close, Invalidation))
    else None
  }

  /** A failed entry that suppresses an entry at bar i. */
  predicate Suppresses(m: Market, v: Variant, f: Failure, i: nat)
    requires i < |m.bars|
  {
    i - f.entry <= v.lookback && Abs(m.bars[i].close - f.price) <= f.price * v.tolerance
  }

  predicate Suppressed(m: Market, v: Variant, failures: seq<Failure>, i: nat)
    requires i < |m.bars|
  {
    v.lookback > 0 && exists k | 0 <= k < |failures| :: Suppresses(m, v, failures[k], i)
  }

  function Since(last: Option<nat>, i: nat): Option<nat> {
    if last.Some? && last.value <= i then Some(i - last.value) else None
  }

  predicate Enters(m: Market, v: Variant, last: Option<nat>, failures: seq<Failure>, i: nat)
    requires i < |m.bars|
  {
    && m.eligible(i) && m.buys(i, Since(last, i))
    && !Suppressed(m, v, failures, i)
    && m.propose(i).Some?
  }

  function Opened(m: Market, i: nat): Position
    requires i < |m.bars| && m.propose(i).Some?
  {
    Position(i, m.bars[i].close, m.propose(i).value, m.channel(i))
  }

  function Closed(p: Position, i: nat, e: Exit): Trade {
    Trade(p, i, e, e.price - p.price)
  }

  predicate Failing(e: Exit) {
    e.reason.StopLoss? || e.reason.Invalidation?
  }

  function Step(m: Market, v: Variant, s: State, i: nat): State
    requires i < |m.bars|
  {
    match s.open
    case Some(p) =>
      (match ExitOf(m, v, p, i)
       case None => s
       case Some(e) =>
         State(s.trades + [Closed(p, i, e)], Some(p.entry),
               if Failing(e) then s.failures + [Failure(p.entry, p.price)] else s.failures, None))
    case None =>
      if Enters(m, v, s.last, s.failures, i) then s.(open := Some(Opened(m, i))) else s
  }

  /** The state before bar i. */
  function Before(m: Market, v: Variant, i: nat): State
    requires i <= |m.bars|
  {
    if i <= WARMUP then State([], None, [], None) else Step(m, v, Before(m, v, i - 1), i - 1)
  }

  /** The loop. */
  method Simulate(m: Market, v: Variant) returns (trades: seq<Trade>)
    ensures trades == Before(m, v, |m.bars|).trades
  {
    trades := [];
    var lastSignalIndex: Option<nat> := None;
    var failedBreakouts: seq<Failure> := [];
    var open: Option<Position> := None;
    var i := WARMUP;
    while i < |m.bars|
      invariant WARMUP <= i
      invariant i <= |m.bars| ==> State(trades, lastSignalIndex, failedBreakouts, open) == Before(m, v, i)
      invariant i > |m.bars| ==> i == WARMUP && trades == []
    {
      if open.Some? {
        var p := open.value;
        var exit := ExitOf(m, v, p, i);
        if exit.Some? {
          trades := trades + [Trade(p, i, exit.value, exit.value.price - p.price)];
          if exit.value.reason == StopLoss || exit.value.reason == Invalidation {
            failedBreakouts := failedBreakouts + [Failure(p.entry, p.price)];
          }
          lastSignalIndex := Some(p.entry);
          open := None;
        }
      } else if m.eligible(i) {
        if m.buys(i, Since(lastSignalIndex, i)) && !Suppressed(m, v, failedBreakouts, i) {
          var proposal := m.propose(i);
          if proposal.Some? {
            open := Some(Position(i, m.bars[i].close, proposal.value, m.channel(i)));
          }
        }
      }
      i := i + 1;
    }
  }

  // ----- what a run's trades are -----

  function Failures(ts: seq<Trade>): seq<Failure> {
    if ts == [] then []
    else
      var t := ts[|ts| - 1];
      Failures(ts[..|ts| - 1]) + if Failing(t.exit) then [Failure(t.position.entry, t.position.price)] else []
  }

  function LastEntry(ts: seq<Trade>): Option<nat> {
    if ts == [] then None else Some(ts[|ts| - 1].position.entry)
  }

  /** The position was opened at its entry bar under the entry rules, after exactly the given trades. */
  predicate WellOpened(m: Market, v: Variant, past: seq<Trade>, p: Position) {
    && WARMUP <= p.entry < |m.bars|
    && Enters(m, v, LastEntry(past), Failures(past), p.entry)
    && p == Opened(m, p.entry)
    && (past != [] ==> past[|past| - 1].bar < p.entry)
  }

  /** No bar strictly between the entry and bar i closes the position. */
  predicate HeldUntil(m: Market, v: Variant, p: Position, i: nat)
    requires i <= |m.bars|
  {
    forall k: nat | p.entry < k < i :: ExitOf(m, v, p, k).None?
  }

  /** The trade's exit bar is the first one after its entry that meets an exit condition. */
  predicate WellClosed(m: Market, v: Variant, t: Trade) {
    && t.position.entry < t.bar < |m.bars|
    && HeldUntil(m, v, t.position, t.bar)
    && ExitOf(m, v, t.position, t.bar) == Some(t.exit)
    && t.pnl == t.exit.price - t.position.price
  }

  /** Trade j follows the rules, given the trades before it. */
  ghost predicate Lawful(m: Market, v: Variant, ts: seq<Trade>, j: nat)
    requires j < |ts|
  {
    WellOpened(m, v, ts[..j], ts[j].position) && WellClosed(m, v, ts[j])
  }

  ghost predicate Invariant(m: Market, v: Variant, s: State, i: nat)
    requires i <= |m.bars|
  {
    && (forall j | 0 <= j < |s.trades| :: Lawful(m, v, s.trades, j))
    && (s.trades != [] ==> s.trades[|s.trades| - 1].bar < i)
    && s.last == LastEntry(s.trades) && s.failures == Failures(s.trades)
    && (s.open.Some? ==>
          && WellOpened(m, v, s.trades, s.open.value)
          && s.open.value.entry < i && HeldUntil(m, v, s.open.value, i))
  }

  lemma ClosingKeeps(m: Market, v: Variant, s: State, i: nat, e: Exit)
    requires i < |m.bars| && Invariant(m, v, s, i) && s.open.Some? && ExitOf(m, v, s.open.value, i) == Some(e)
    ensures Invariant(m, v, Step(m, v, s, i), i + 1)
  {
    var p := s.open.value;
    var t := Closed(p, i, e);
    var ts := s.trades + [t];
    assert ts[..|s.trades|] == s.trades;
    forall j | 0 <= j < |ts| ensures Lawful(m, v, ts, j) {
      if j < |s.trades| {
        assert Lawful(m, v, s.trades, j);
        assert ts[..j] == s.trades[..j];
      }
    }
  }

  lemma HoldingKeeps(m: Market, v: Variant, s: State, i: nat)
    requires i < |m.bars| && Invariant(m, v, s, i) && s.open.Some? && ExitOf(m, v, s.open.value, i).None?
    ensures Invariant(m, v, s, i + 1)
  {
  }

  lemma FlatKeeps(m: Market, v: Variant, s: State, i: nat)
    requires WARMUP <= i < |m.bars| && Invariant(m, v, s, i) && s.open.None?
    ensures Invariant(m, v, Step(m, v, s, i), i + 1)
  {
  }

  lemma StepKeeps(m: Market, v: Variant, s: State, i: nat)
    requires WARMUP <= i < |m.bars| && Invariant(m, v, s, i)
    ensures Invariant(m, v, Step(m, v, s, i), i + 1)
  {
    if s.open.None? {
      FlatKeeps(m, v, s, i);
    } else {
      var e := ExitOf(m, v, s.open.value, i);
      if e.Some? {
        ClosingKeeps(m, v, s, i, e.value);
      } else {
        HoldingKeeps(m, v, s, i);
      }
    }
  }

  lemma {:induction false} InvariantHolds(m: Market, v: Variant, i: nat)
    requires i <= |m.bars|
    ensures Invariant(m, v, Before(m, v, i), i)
  {
    if i > WARMUP {
      InvariantHolds(m, v, i - 1);
      StepKeeps(m, v, Before(m, v, i - 1), i - 1);
    }
  }

  /** Every recorded trade entered under the rules given the trades before it, and left at the first bar that meets
      an exit condition, at that bar's first condition. */
  lemma TradesLawful(m: Market, v: Variant, ts: seq<Trade>, j: nat)
    requires ts == Before(m, v, |m.bars|).trades && j < |ts|
    ensures WellOpened(m, v, ts[..j], ts[j].position) && WellClosed(m, v, ts[j])
  {
    InvariantHolds(m, v, |m.bars|);
    assert Lawful(m, v, ts, j);
  }

  /** Trades are disjoint and in order. */
  lemma {:induction false} TradesDisjoint(m: Market, v: Variant, ts: seq<Trade>, j: nat, k: nat)
    requires ts == Before(m, v, |m.bars|).trades && j < k < |ts|
    ensures ts[j].position.entry < ts[j].bar < ts[k].position.entry
    decreases k
  {
    TradesLawful(m, v, ts, j);
    TradesLawful(m, v, ts, k);
    if j < k - 1 {
      TradesDisjoint(m, v, ts, j, k - 1);
      TradesLawful(m, v, ts, k - 1);
    }
  }

  lemma {:induction false} FailureListed(ts: seq<Trade>, j: nat) returns (k: nat)
    requires j < |ts| && Failing(ts[j].exit)
    ensures k < |Failures(ts)| && Failures(ts)[k] == Failure(ts[j].position.entry, ts[j].position.price)
  {
    if j == |ts| - 1 {
      k := |Failures(ts)| - 1;
    } else {
      k := FailureListed(ts[..|ts| - 1], j);
    }
  }

  /** No trade enters within the lookback and price tolerance of an earlier failed entry. */
  lemma NoEntryNearFailure(m: Market, v: Variant, ts: seq<Trade>, j: nat, k: nat)
    requires ts == Before(m, v, |m.bars|).trades && j < k < |ts| && v.lookback > 0 && Failing(ts[j].exit)
    ensures var p, q := ts[j].position, ts[k].position;
            q.entry - p.entry > v.lookback || Abs(q.price - p.price) > p.price * v.tolerance
  {
    TradesLawful(m, v, ts, k);
    var at := FailureListed(ts[..k], j);
    assert !Suppresses(m, v, Failures(ts[..k])[at], ts[k].position.entry);
  }

  // ----- no entry is missed -----

  /** Bar i falls inside the trade, from its entry to its exit. */
  predicate Covers(t: Trade, i: nat) {
    t.position.entry <= i <= t.bar
  }

  /** The trades that have closed before bar i. */
  function Earlier(ts: seq<Trade>, i: nat): (r: seq<Trade>)
    ensures r <= ts
  {
    if ts == [] then [] else if ts[|ts| - 1].bar < i then ts else Earlier(ts[..|ts| - 1], i)
  }

  lemma {:induction false} TradesGrow(m: Market, v: Variant, i: nat, n: nat)
    requires i <= n <= |m.bars|
    ensures Before(m, v, i).trades <= Before(m, v, n).trades
    ensures forall j | |Before(m, v, i).trades| <= j < |Before(m, v, n).trades| :: Before(m, v, n).trades[j].bar >= i
    decreases n
  {
    if i < n {
      TradesGrow(m, v, i, n - 1);
    }
  }

  lemma {:induction false} EarlierIs(ts: seq<Trade>, past: seq<Trade>, i: nat)
    requires past <= ts && (past != [] ==> past[|past| - 1].bar < i)
    requires forall j | |past| <= j < |ts| :: ts[j].bar >= i
    ensures Earlier(ts, i) == past
    decreases |ts|
  {
    if |ts| > |past| {
      EarlierIs(ts[..|ts| - 1], past, i);
    } else {
      assert ts == past;
    }
  }

  lemma {:induction false} OpenEndsCovered(m: Market, v: Variant, i: nat, n: nat, p: Position)
    requires i <= n <= |m.bars| && Before(m, v, i).open == Some(p)
    ensures var s := Before(m, v, n);
            s.open == Some(p)
            || exists j | 0 <= j < |s.trades| :: s.trades[j].position == p && s.trades[j].bar >= i
    decreases n
  {
    if i < n {
      OpenEndsCovered(m, v, i, n - 1, p);
      var s := Before(m, v, n - 1);
      if s.open == Some(p) {
        if ExitOf(m, v, p, n - 1).Some? && n - 1 >= WARMUP {
          var r := Before(m, v, n);
          assert r.trades[|r.trades| - 1].position == p;
        }
      } else {
        var j :| 0 <= j < |s.trades| && s.trades[j].position == p && s.trades[j].bar >= i;
        TradesGrow(m, v, n - 1, n);
        assert Before(m, v, n).trades[j] == s.trades[j];
      }
    }
  }

  /** A bar after the warm-up that no trade and no position still open at the end covers did not meet the entry
      rules: the simulation never skips an entry. */
  lemma NoEntryMissed(m: Market, v: Variant, s: State, i: nat)
    requires s == Before(m, v, |m.bars|) && WARMUP <= i < |m.bars|
    requires forall j | 0 <= j < |s.trades| :: !Covers(s.trades[j], i)
    requires s.open.None? || s.open.value.entry > i
    ensures var past := Earlier(s.trades, i); !Enters(m, v, LastEntry(past), Failures(past), i)
  {
    InvariantHolds(m, v, i);
    InvariantHolds(m, v, i + 1);
    var now, next := Before(m, v, i), Before(m, v, i + 1);
    TradesGrow(m, v, i, |m.bars|);
    EarlierIs(s.trades, now.trades, i);
    if now.open.Some? {
      OpenEndsCovered(m, v, i, |m.bars|, now.open.value);
    } else if next.open.Some? {
      OpenEndsCovered(m, v, i + 1, |m.bars|, next.open.value);
    }
  }

  // ----- the rules, in the bars' own terms -----

  /** The trade left because of the bar's low, its high or its close, in that order of priority. */
  lemma ExitReasons(m: Market, v: Variant, ts: seq<Trade>, j: nat)
    requires ts == Before(m, v, |m.bars|).trades && j < |ts|
    ensures ts[j].bar < |m.bars|
    ensures var t := ts[j]; var c, l := m.bars[t.bar], t.position.levels;
            && (t.exit.reason.StopLoss? <==> c.low <= l.stop)
            && (t.exit.reason.TakeProfit? <==> c.low > l.stop && c.high >= l.target)
            && (t.exit.reason.Invalidation? <==> c.low > l.stop && c.high < l.target)
            && t.exit.price == match t.exit.reason {
                                 case StopLoss => l.stop
                                 case TakeProfit => l.target
                                 case Invalidation => c.close
                               }
            && t.pnl == t.exit.price - t.position.price
  {
    TradesLawful(m, v, ts, j);
  }

  /** The close is back inside the channel that the position broke out of, within five bars of its entry. */
  predicate BackInside(m: Market, v: Variant, p: Position, i: nat)
    requires i < |m.bars|
  {
    v.invalidation && p.channel.Some? && i <= p.entry + 5 && m.bars[i].close < p.channel.value
  }

  /** An invalidated trade closed back inside its channel, and no bar of any trade before its exit reached a level or
      closed back inside. */
  lemma HeldBars(m: Market, v: Variant, ts: seq<Trade>, j: nat, k: nat)
    requires ts == Before(m, v, |m.bars|).trades && j < |ts| && ts[j].position.entry < k <= ts[j].bar < |m.bars|
    ensures var t := ts[j]; var c, l := m.bars[k], t.position.levels;
            if k < t.bar then c.low > l.stop && c.high < l.target && !BackInside(m, v, t.position, k)
            else t.exit.reason.Invalidation? ==> BackInside(m, v, t.position, k)
  {
    TradesLawful(m, v, ts, j);
    if k < ts[j].bar {
      assert ExitOf(m, v, ts[j].position, k).None?;
    }
  }

  /** The bars between bar i and the entry of the last trade before it. */
  function SinceLast(past: seq<Trade>, i: nat): Option<nat> {
    if past == [] || past[|past| - 1].position.entry > i then None
    else Some(i - past[|past| - 1].position.entry)
  }

  /** The trade was entered at the close of a tradable bar after the warm-up, when the strategy bought given the bars
      since the previous entry, with the levels proposed and the channel standing there. */
  lemma EntryTerms(m: Market, v: Variant, ts: seq<Trade>, j: nat)
    requires ts == Before(m, v, |m.bars|).trades && j < |ts|
    ensures var p := ts[j].position;
            && 80 <= p.entry < |m.bars| && p.price == m.bars[p.entry].close
            && m.eligible(p.entry) && m.propose(p.entry) == Some(p.levels) && p.channel == m.channel(p.entry)
            && m.buys(p.entry, SinceLast(ts[..j], p.entry))
  {
    TradesLawful(m, v, ts, j);
    if j > 0 {
      TradesDisjoint(m, v, ts, j - 1, j);
    }
  }

  /** A trade that failed before bar i and still suppresses an entry there. */
  predicate Blocks(m: Market, v: Variant, t: Trade, i: nat)
    requires i < |m.bars|
  {
    && t.bar < i && !t.exit.reason.TakeProfit?
    && i - t.position.entry <= v.lookback
    && Abs(m.bars[i].close - t.position.price) <= t.position.price * v.tolerance
  }

  lemma {:induction false} ListedFailure(ts: seq<Trade>, k: nat) returns (j: nat)
    requires k < |Failures(ts)|
    ensures j < |ts| && Failing(ts[j].exit)
    ensures Failures(ts)[k] == Failure(ts[j].position.entry, ts[j].position.price)
  {
    if k < |Failures(ts[..|ts| - 1])| {
      j := ListedFailure(ts[..|ts| - 1], k);
    } else {
      j := |ts| - 1;
    }
  }

  /** A bar after the warm-up that no trade covers was not tradable, or the strategy did not buy, or nothing was
      proposed, or a failed trade before it was near. */
  lemma WhyNotEntered(m: Market, v: Variant, s: State, i: nat)
    requires s == Before(m, v, |m.bars|) && 80 <= i < |m.bars|
    requires forall j | 0 <= j < |s.trades| :: !Covers(s.trades[j], i)
    requires s.open.None? || s.open.value.entry > i
    ensures var past := Earlier(s.trades, i);
            || !m.eligible(i) || m.propose(i).None? || !m.buys(i, SinceLast(past, i))
            || (v.lookback > 0 && exists j | 0 <= j < |past| :: Blocks(m, v, past[j], i))
  {
    NoEntryMissed(m, v, s, i);
    if Suppressed(m, v, Failures(Earlier(s.trades, i)), i) {
      var j := SuppressedBy(m, v, s.trades, i);
    }
  }

  lemma SuppressedBy(m: Market, v: Variant, ts: seq<Trade>, i: nat) returns (j: nat)
    requires ts == Before(m, v, |m.bars|).trades && i < |m.bars|
    requires Suppressed(m, v, Failures(Earlier(ts, i)), i)
    ensures j < |Earlier(ts, i)| && Blocks(m, v, Earlier(ts, i)[j], i)
  {
    var past := Earlier(ts, i);
    var k :| 0 <= k < |Failures(past)| && Suppresses(m, v, Failures(past)[k], i);
    j := ListedFailure(past, k);
    EarlierBefore(m, v, ts, i, j);
  }

  lemma {:induction false} EarlierBefore(m: Market, v: Variant, ts: seq<Trade>, i: nat, j: nat)
    requires ts == Before(m, v, |m.bars|).trades && j < |Earlier(ts, i)|
    ensures Earlier(ts, i)[j].bar < i
  {
    var past := Earlier(ts, i);
    EarlierLast(ts, i);
    if j < |past| - 1 {
      TradesDisjoint(m, v, ts, j, |past| - 1);
      TradesLawful(m, v, ts, |past| - 1);
    }
  }

  lemma {:induction false} EarlierLast(ts: seq<Trade>, i: nat)
    ensures var past := Earlier(ts, i); past != [] ==> past[|past| - 1].bar < i
  {
    if ts != [] && ts[|ts| - 1].bar >= i {
      EarlierLast(ts[..|ts| - 1], i);
    }
  }
}
