/**
 A whole execution attempt that nothing interferes with: with every check passing it sends one order and opens the
 position, from no rows as from a resumable pair; without a free slot, or at a blocked gate, it changes nothing.
 */
module Execution {
  import opened Wrappers
  import opened ExecutionModel
  import opened Protocol
  import opened SingleSend
  import opened Overlap
  import opened Helpers
  import opened Attempts

  /** Process pid at pc over the tables db, everything else as in sys. */
  function Moved(sys: Sys, pid: nat, pc: Pc, db: Db): Sys
    requires pid in sys.procs
  {
    sys.(db := db, procs := sys.procs[pid := sys.procs[pid].(pc := pc)])
  }

  ghost predicate Reached(sys: Sys, pid: nat, c: Choice, n: nat, pc: Pc, db: Db) {
    pid in sys.procs && Alone(sys, pid, c, n) == Moved(sys, pid, pc, db)
  }

  lemma Stepwise(sys: Sys, pid: nat, c: Choice, n: nat, mid: Sys)
    requires mid == Alone(sys, pid, c, n)
    ensures Alone(sys, pid, c, n + 1) == Step(mid, Run(pid, c))
  {
    AloneOnce(mid, pid, c);
    AloneTwice(sys, pid, c, n, 1);
  }

  /** One more step, away from the lock and the order. */
  lemma Onward(sys: Sys, pid: nat, c: Choice, n: nat, pc: Pc, db: Db, next: Pc)
    requires Reached(sys, pid, c, n, pc, db) && !pc.Lock? && !pc.ReserveRead? && !pc.ReserveInsert? && !pc.Order?
    requires NextPc(Moved(sys, pid, pc, db), pid, sys.procs[pid].(pc := pc), c) == Some(next)
    ensures Reached(sys, pid, c, n + 1, next, NextDb(db, sys.procs[pid].sig, pc, c))
  {
    Stepwise(sys, pid, c, n, Moved(sys, pid, pc, db));
  }

  /** The environment lets every check pass and accepts the order with the fill f. */
  predicate Favourable(c: Choice, f: Fill) {
    c.ok && c.safe && c.params.takeProfit.Some? && c.outcome == Accepted(f)
  }

  /** A process that is about to start its attempt on s. */
  predicate Starts(sys: Sys, pid: nat, s: Signal, limit: int, q: Params) {
    pid in sys.procs && sys.procs[pid].sig == s && sys.procs[pid].pc == Entry(Attempt(limit, q))
  }

  lemma NotYet(sys: Sys, pid: nat, c: Choice)
    requires pid in sys.procs
    ensures Reached(sys, pid, c, 0, sys.procs[pid].pc, sys.db)
  {
    assert Moved(sys, pid, sys.procs[pid].pc, sys.db) == sys;
  }

  // ----- no rows yet: the create transaction -----

  lemma FreshReachesLock(sys: Sys, pid: nat, c: Choice, f: Fill, s: Signal, limit: int, q: Params)
    requires Starts(sys, pid, s, limit, q) && Favourable(c, f)
    requires s !in sys.db.positions && s !in sys.db.intents
    ensures Reached(sys, pid, c, 2, Lock(limit, q), sys.db)
  {
    NotYet(sys, pid, c);
    Onward(sys, pid, c, 0, GatePosition(limit, q), sys.db, GateIntent(limit, q, None));
    Onward(sys, pid, c, 1, GateIntent(limit, q, None), sys.db, Lock(limit, q));
  }

  /** Process pid holds the user's lock and stands at pc. */
  function Holding(sys: Sys, pid: nat, pc: Pc): Sys
    requires pid in sys.procs
  {
    Moved(sys, pid, pc, sys.db).(locks := sys.locks[sys.procs[pid].sig.user := pid])
  }

  lemma TakesTheLock(sys: Sys, pid: nat, c: Choice, s: Signal, limit: int, q: Params)
    requires Reached(sys, pid, c, 2, Lock(limit, q), sys.db) && sys.procs[pid].sig == s && s.user !in sys.locks
    ensures Alone(sys, pid, c, 3) == Holding(sys, pid, ReserveRead(limit, q))
  {
    Stepwise(sys, pid, c, 2, Moved(sys, pid, Lock(limit, q), sys.db));
  }

  lemma CountStep(sys: Sys, pid: nat, c: Choice, s: Signal, limit: int, q: Params, mid: Sys)
    requires pid in sys.procs && sys.procs[pid].sig == s && s !in sys.db.positions && s !in sys.db.intents
    requires Consumed(sys.db, s.user) < limit && mid == Holding(sys, pid, ReserveRead(limit, q))
    ensures Step(mid, Run(pid, c)) == Holding(sys, pid, ReserveInsert(limit, q, Consumed(sys.db, s.user)))
  {
    assert NextPc(mid, pid, mid.procs[pid], c) == Some(ReserveInsert(limit, q, Consumed(sys.db, s.user)));
  }

  lemma CountsTheSlots(sys: Sys, pid: nat, c: Choice, s: Signal, limit: int, q: Params)
    requires pid in sys.procs && sys.procs[pid].sig == s && s !in sys.db.positions && s !in sys.db.intents
    requires Consumed(sys.db, s.user) < limit
    requires Alone(sys, pid, c, 3) == Holding(sys, pid, ReserveRead(limit, q))
    ensures Alone(sys, pid, c, 4) == Holding(sys, pid, ReserveInsert(limit, q, Consumed(sys.db, s.user)))
  {
    Stepwise(sys, pid, c, 3, Holding(sys, pid, ReserveRead(limit, q)));
    CountStep(sys, pid, c, s, limit, q, Holding(sys, pid, ReserveRead(limit, q)));
  }

  lemma LockGivenBack(locks: map<string, nat>, user: string, pid: nat)
    requires user !in locks
    ensures locks[user := pid] - {user} == locks
  {
  }

  lemma InsertStep(sys: Sys, pid: nat, c: Choice, s: Signal, limit: int, q: Params, k: nat, mid: Sys)
    requires pid in sys.procs && sys.procs[pid].sig == s && s !in sys.db.positions && s !in sys.db.intents
    requires s.user !in sys.locks && mid == Holding(sys, pid, ReserveInsert(limit, q, k))
    ensures Step(mid, Run(pid, c)) == Moved(sys, pid, PreSubmit(0), InsertPair(sys.db, s, q, c.now))
  {
    LockGivenBack(sys.locks, s.user, pid);
    assert NextPc(mid, pid, mid.procs[pid], c) == Some(PreSubmit(0));
  }

  lemma InsertsThePair(sys: Sys, pid: nat, c: Choice, s: Signal, limit: int, q: Params, k: nat)
    requires pid in sys.procs && sys.procs[pid].sig == s && s !in sys.db.positions && s !in sys.db.intents
    requires s.user !in sys.locks && Alone(sys, pid, c, 4) == Holding(sys, pid, ReserveInsert(limit, q, k))
    ensures Reached(sys, pid, c, 5, PreSubmit(0), InsertPair(sys.db, s, q, c.now))
  {
    Stepwise(sys, pid, c, 4, Holding(sys, pid, ReserveInsert(limit, q, k)));
    InsertStep(sys, pid, c, s, limit, q, k, Holding(sys, pid, ReserveInsert(limit, q, k)));
  }

  /** The pair is created with the given parameters at the current time, and refreshed before it is submitted. */
  lemma FreshReachesGate(sys: Sys, pid: nat, c: Choice, f: Fill, s: Signal, limit: int, q: Params)
    requires Starts(sys, pid, s, limit, q) && Favourable(c, f) && s.user !in sys.locks
    requires s !in sys.db.positions && s !in sys.db.intents && Consumed(sys.db, s.user) < limit
    ensures Reached(sys, pid, c, 7, LiveGate, InsertPair(sys.db, s, c.params, c.now))
  {
    FreshReachesLock(sys, pid, c, f, s, limit, q);
    TakesTheLock(sys, pid, c, s, limit, q);
    CountsTheSlots(sys, pid, c, s, limit, q);
    InsertsThePair(sys, pid, c, s, limit, q, Consumed(sys.db, s.user));
    RefreshesThePair(sys, pid, c, f, s, q);
  }

  lemma RefreshOfInsert(db: Db, s: Signal, q: Params, c: Choice)
    ensures NextDb(InsertPair(db, s, q, c.now), s, Refresh(0, c.params), c) == InsertPair(db, s, c.params, c.now)
  {
    var a, b := RefreshParams(InsertPair(db, s, q, c.now), s, c.params), InsertPair(db, s, c.params, c.now);
    assert a.positions == b.positions && a.intents == b.intents;
  }

  lemma PreparesRefresh(sys: Sys, pid: nat, c: Choice, f: Fill, db: Db)
    requires Favourable(c, f) && Reached(sys, pid, c, 5, PreSubmit(0), db)
    ensures Reached(sys, pid, c, 6, Refresh(0, c.params), db)
  {
    Onward(sys, pid, c, 5, PreSubmit(0), db, Refresh(0, c.params));
  }

  lemma RefreshesThePair(sys: Sys, pid: nat, c: Choice, f: Fill, s: Signal, q: Params)
    requires pid in sys.procs && sys.procs[pid].sig == s && Favourable(c, f)
    requires Reached(sys, pid, c, 5, PreSubmit(0), InsertPair(sys.db, s, q, c.now))
    ensures Reached(sys, pid, c, 7, LiveGate, InsertPair(sys.db, s, c.params, c.now))
  {
    var db := InsertPair(sys.db, s, q, c.now);
    PreparesRefresh(sys, pid, c, f, db);
    Onward(sys, pid, c, 6, Refresh(0, c.params), db, LiveGate);
    RefreshOfInsert(sys.db, s, q, c);
  }

  /** A waiting, unsubmitted pair is resumed as it is. */
  lemma ResumeReachesGate(sys: Sys, pid: nat, c: Choice, f: Fill, s: Signal, limit: int, q: Params)
    requires Starts(sys, pid, s, limit, q) && Favourable(c, f) && Resumable(sys.db, s)
    ensures Reached(sys, pid, c, 3, LiveGate, sys.db)
  {
    NotYet(sys, pid, c);
    Onward(sys, pid, c, 0, GatePosition(limit, q), sys.db, GateIntent(limit, q, Some(Pending)));
    Onward(sys, pid, c, 1, GateIntent(limit, q, Some(Pending)), sys.db, ResumeCheck);
    Onward(sys, pid, c, 2, ResumeCheck, sys.db, LiveGate);
  }

  // ----- from the live gate to the fill -----

  lemma ReachesOrder(sys: Sys, pid: nat, c: Choice, f: Fill, s: Signal, n: nat, db: Db)
    requires Reached(sys, pid, c, n, LiveGate, db) && sys.procs[pid].sig == s
    requires Favourable(c, f) && Resumable(db, s) && Tally(sys.fills, s) == 0
    ensures Reached(sys, pid, c, n + 4, Order(0), SetState(db, s, Submitted))
  {
    Onward(sys, pid, c, n, LiveGate, db, SubmitRead(0));
    Onward(sys, pid, c, n + 1, SubmitRead(0), db, SubmitWrite(0));
    Onward(sys, pid, c, n + 2, SubmitWrite(0), db, Send(0));
    Onward(sys, pid, c, n + 3, Send(0), SetState(db, s, Submitted), Order(0));
  }

  /** One order went out and filled. */
  function Ordered(sys: Sys, s: Signal): Sys {
    sys.(sends := sys.sends[s := Tally(sys.sends, s) + 1], fills := sys.fills[s := Tally(sys.fills, s) + 1])
  }

  lemma OrdersOnce(sys: Sys, pid: nat, c: Choice, f: Fill, s: Signal, n: nat, db: Db)
    requires Reached(sys, pid, c, n, Order(0), db) && sys.procs[pid].sig == s
    requires Favourable(c, f) && Tally(sys.fills, s) == 0
    ensures Alone(sys, pid, c, n + 1) == Ordered(Moved(sys, pid, Reply(0, Accepted(f)), db), s)
  {
    Stepwise(sys, pid, c, n, Moved(sys, pid, Order(0), db));
  }

  /** The attempt is over; one order was sent and filled; the signal's position is open with the fill and its intent
      PERSISTED with the given parameters and creation time; nothing else changed. */
  ghost predicate Executed(sys: Sys, pid: nat, c: Choice, n: nat, s: Signal, f: Fill, q: Params, createdAt: int) {
    var end := Alone(sys, pid, c, n);
    && pid !in end.procs && end.locks == sys.locks && Untouched(sys.db, end.db, s)
    && Tally(end.sends, s) == Tally(sys.sends, s) + 1 && Tally(end.fills, s) == Tally(sys.fills, s) + 1
    && s in end.db.positions && s in end.db.intents
    && end.db.positions[s].status.Open? && end.db.positions[s].ticket == Some(f.ticket)
    && end.db.positions[s].params == q.(volume := f.volume)
    && end.db.intents[s].state.Persisted? && end.db.intents[s].requested == q
    && end.db.intents[s].createdAt == createdAt
  }

  lemma RowIs(db: Db, s: Signal)
    ensures RowOf(db, s).position.Some? <==> s in db.positions
    ensures RowOf(db, s).intent.Some? <==> s in db.intents
    ensures s in db.positions ==> RowOf(db, s).position.value == db.positions[s]
    ensures s in db.intents ==> RowOf(db, s).intent.value == db.intents[s]
  {
  }

  lemma UntouchedTwice(a: Db, b: Db, c: Db, s: Signal)
    requires Untouched(a, b, s) && Untouched(b, c, s)
    ensures Untouched(a, c, s)
  {
  }

  lemma ReplyExecutes(sys: Sys, mid: Sys, pid: nat, c: Choice, f: Fill, s: Signal, m: nat, k: nat, db: Db)
    requires mid == Alone(sys, pid, c, m) && pid in sys.procs
    requires mid == Ordered(Moved(sys, pid, Reply(0, Accepted(f)), db), s)
    requires BothThere(db, s) && db.positions[s].status.Pending? && db.intents[s].state.Submitted?
             && db.positions[s].params == db.intents[s].requested
    requires Untouched(sys.db, db, s) && Records(mid, pid, c, k, s, f)
    ensures Executed(sys, pid, c, m + k, s, f, db.intents[s].requested, db.intents[s].createdAt)
  {
    AloneTwice(sys, pid, c, m, k);
    var end := Alone(mid, pid, c, k);
    RowIs(db, s);
    RowIs(end.db, s);
    UntouchedTwice(sys.db, db, end.db, s);
  }

  lemma ReachesReply(sys: Sys, pid: nat, c: Choice, f: Fill, s: Signal, n: nat, db: Db, marked: Db)
    requires Reached(sys, pid, c, n, LiveGate, db) && sys.procs[pid].sig == s
    requires Favourable(c, f) && Resumable(db, s) && Tally(sys.fills, s) == 0
    requires marked == SetState(db, s, Submitted)
    ensures Alone(sys, pid, c, n + 5) == Ordered(Moved(sys, pid, Reply(0, Accepted(f)), marked), s)
  {
    ReachesOrder(sys, pid, c, f, s, n, db);
    OrdersOnce(sys, pid, c, f, s, n + 4, marked);
  }

  lemma MarkTouches(a: Db, db: Db, marked: Db, s: Signal)
    requires s in db.intents && marked == SetState(db, s, Submitted) && Untouched(a, db, s)
    ensures Untouched(a, marked, s)
  {
  }

  lemma GateExecutes(sys: Sys, pid: nat, c: Choice, f: Fill, s: Signal, n: nat, db: Db) returns (m: nat)
    requires Reached(sys, pid, c, n, LiveGate, db) && sys.procs[pid].sig == s
    requires Favourable(c, f) && Resumable(db, s) && Tally(sys.fills, s) == 0
    requires db.positions[s].params == db.intents[s].requested && Untouched(sys.db, db, s)
    ensures Executed(sys, pid, c, m, s, f, db.intents[s].requested, db.intents[s].createdAt)
  {
    var marked := SetState(db, s, Submitted);
    ReachesReply(sys, pid, c, f, s, n, db, marked);
    var mid := Alone(sys, pid, c, n + 5);
    var k := ReplyIsRecorded(sys, pid, c, f, s, mid, marked);
    MarkTouches(sys.db, db, marked, s);
    ReplyExecutes(sys, mid, pid, c, f, s, n + 5, k, marked);
    m := n + 5 + k;
  }

  lemma ReplyIsRecorded(sys: Sys, pid: nat, c: Choice, f: Fill, s: Signal, mid: Sys, db: Db) returns (k: nat)
    requires pid in sys.procs && sys.procs[pid].sig == s
    requires mid == Ordered(Moved(sys, pid, Reply(0, Accepted(f)), db), s)
    requires BothThere(db, s) && db.positions[s].status.Pending?
    ensures Records(mid, pid, c, k, s, f)
  {
    k := FillIsRecorded(mid, pid, c, f);
  }

  /** On a signal without rows, with a free slot and every check passing, an attempt sends one order and ends with the
      position open and its intent PERSISTED, created at the attempt's time with the refreshed parameters. */
  lemma FreshAttemptExecutes(sys: Sys, pid: nat, c: Choice, f: Fill, s: Signal, limit: int, q: Params) returns (n: nat)
    requires Starts(sys, pid, s, limit, q) && Favourable(c, f) && s.user !in sys.locks && Tally(sys.fills, s) == 0
    requires s !in sys.db.positions && s !in sys.db.intents && Consumed(sys.db, s.user) < limit
    ensures Executed(sys, pid, c, n, s, f, c.params, c.now)
  {
    FreshReachesGate(sys, pid, c, f, s, limit, q);
    assert Untouched(sys.db, InsertPair(sys.db, s, c.params, c.now), s);
    n := GateExecutes(sys, pid, c, f, s, 7, InsertPair(sys.db, s, c.params, c.now));
  }

  /** On a waiting, unsubmitted pair it does the same with the frozen parameters and the old creation time, whatever the
      limit: the slot is already reserved. */
  lemma ResumedAttemptExecutes(sys: Sys, pid: nat, c: Choice, f: Fill, s: Signal, limit: int, q: Params)
    returns (n: nat)
    requires Starts(sys, pid, s, limit, q) && Favourable(c, f) && Tally(sys.fills, s) == 0
    requires Resumable(sys.db, s) && sys.db.positions[s].params == sys.db.intents[s].requested
    ensures Executed(sys, pid, c, n, s, f, sys.db.intents[s].requested, sys.db.intents[s].createdAt)
  {
    ResumeReachesGate(sys, pid, c, f, s, limit, q);
    n := GateExecutes(sys, pid, c, f, s, 3, sys.db);
  }

  // ----- attempts that change nothing -----

  /** The attempt is over and left everything as it was. */
  ghost predicate Vanishes(sys: Sys, pid: nat, c: Choice, n: nat) {
    pid in sys.procs && Alone(sys, pid, c, n) == sys.(procs := sys.procs - {pid})
  }

  /** Without a free slot the create transaction reports a block and gives its lock back. */
  lemma FullUserIsBlocked(sys: Sys, pid: nat, c: Choice, s: Signal, limit: int, q: Params)
    requires Starts(sys, pid, s, limit, q) && c.ok && s.user !in sys.locks
    requires s !in sys.db.positions && s !in sys.db.intents && Consumed(sys.db, s.user) >= limit
    ensures Vanishes(sys, pid, c, 4)
  {
    NotYet(sys, pid, c);
    Onward(sys, pid, c, 0, GatePosition(limit, q), sys.db, GateIntent(limit, q, None));
    Onward(sys, pid, c, 1, GateIntent(limit, q, None), sys.db, Lock(limit, q));
    TakesTheLock(sys, pid, c, s, limit, q);
    Stepwise(sys, pid, c, 3, Holding(sys, pid, ReserveRead(limit, q)));
    assert Alone(sys, pid, c, 4).locks == sys.locks;
  }

  lemma GateIsRead(sys: Sys, pid: nat, c: Choice, s: Signal, limit: int, q: Params)
    requires Starts(sys, pid, s, limit, q)
    ensures Reached(sys, pid, c, 1, GateIntent(limit, q, StatusOf(sys.db, s)), sys.db)
  {
    NotYet(sys, pid, c);
    Onward(sys, pid, c, 0, GatePosition(limit, q), sys.db, GateIntent(limit, q, StatusOf(sys.db, s)));
  }

  /** A position that is already OPEN, or an intent that is past resuming over a position that is not PENDING, blocks
      the attempt at its gate. */
  predicate Settles(db: Db, s: Signal) {
    || (s in db.positions && db.positions[s].status.Open?)
    || (s in db.intents && (s in db.positions ==> !db.positions[s].status.Pending?))
  }

  lemma SettledSignalIsBlocked(sys: Sys, pid: nat, c: Choice, s: Signal, limit: int, q: Params)
    requires Starts(sys, pid, s, limit, q) && Settles(sys.db, s)
    ensures Vanishes(sys, pid, c, 2)
  {
    GateIsRead(sys, pid, c, s, limit, q);
    Stepwise(sys, pid, c, 1, Moved(sys, pid, GateIntent(limit, q, StatusOf(sys.db, s)), sys.db));
  }

  /** So does a waiting position whose intent is past resuming, if the broker reports no position for it. */
  lemma UnmatchedSignalIsBlocked(sys: Sys, pid: nat, c: Choice, s: Signal, limit: int, q: Params)
    requires Starts(sys, pid, s, limit, q) && !Found(sys, s, c)
    requires s in sys.db.positions && sys.db.positions[s].status.Pending?
    requires BlockedWaiting(sys, s, Some(Pending))
    ensures Vanishes(sys, pid, c, 3)
  {
    GateIsRead(sys, pid, c, s, limit, q);
    Onward(sys, pid, c, 1, GateIntent(limit, q, Some(Pending)), sys.db, Adopt(GateBlocked));
    QueryEnds(Moved(sys, pid, Adopt(GateBlocked), sys.db), pid, c, GateBlocked);
    Stepwise(sys, pid, c, 2, Moved(sys, pid, Adopt(GateBlocked), sys.db));
  }

  // ----- a create transaction that finds rows -----

  /** A create transaction that finds the pair, before its insert or by the insert's conflict, goes on to submit it as
      it is; one that conflicts with a lone row fails. Either way no row changes and the lock is given back. */
  lemma PairIsTaken(sys: Sys, pid: nat, c: Choice, s: Signal)
    requires pid in sys.procs && sys.procs[pid].sig == s && (s in sys.db.positions || s in sys.db.intents)
    requires sys.procs[pid].pc.ReserveInsert? || (sys.procs[pid].pc.ReserveRead? && BothThere(sys.db, s))
    ensures var end := Step(sys, Run(pid, c));
            && end.db == sys.db && end.locks == sys.locks - {s.user} && end.sends == sys.sends
            && (pid in end.procs <==> BothThere(sys.db, s))
            && (pid in end.procs ==> end.procs[pid] == sys.procs[pid].(pc := PreSubmit(0)))
  {
  }
}
