/**
 When attempts that do not overlap send a signal twice: only if the broker refuses the first order for its stops,
 and then the caller resubmits once.
 */
module Resubmission {
  import opened Wrappers
  import opened ExecutionModel
  import opened Protocol
  import opened SingleSend
  import opened Overlap
  import opened Races

  // ----- without such a refusal: one send -----

  /** The broker refuses an order for s for its stops. */
  predicate RefusesStops(sys: Sys, e: Event, s: Signal) {
    && e.Run? && e.pid in sys.procs && sys.procs[e.pid].sig == s && sys.procs[e.pid].pc.Order?
    && e.choice.outcome == Refused(true)
  }

  /** No order for s of the run is refused for its stops. */
  predicate StopsAccepted(sys: Sys, es: seq<Event>, s: Signal)
    decreases |es|
  {
    es == [] || (!RefusesStops(sys, es[0], s) && StopsAccepted(Step(sys, es[0]), es[1..], s))
  }

  /** A program counter of an attempt that has not been told to resubmit. */
  predicate FirstTry(pc: Pc) {
    match pc
    case PreSubmit(n) => n == 0
    case Refresh(n, _) => n == 0
    case SubmitRead(n) => n == 0
    case SubmitWrite(n) => n == 0
    case Send(n) => n == 0
    case Order(n) => n == 0
    case Reply(n, outcome) => n == 0 && outcome != Refused(true)
    case Adopt(caller) => caller.RefusedReply? ==> caller.attempt == 0 && !caller.invalidStops
    case _ => true
  }

  ghost predicate OnceInv(sys: Sys, s: Signal) {
    && Tally(sys.sends, s) <= 1
    && (forall pid | pid in sys.procs && sys.procs[pid].sig == s :: FirstTry(sys.procs[pid].pc))
  }

  lemma FirstTryStep(sys: Sys, pid: nat, p: Proc, c: Choice)
    requires FirstTry(p.pc) && (p.pc.Order? ==> c.outcome != Refused(true)) && NextPc(sys, pid, p, c).Some?
    ensures FirstTry(NextPc(sys, pid, p, c).value)
  {
  }

  lemma OneSendStep(sys: Sys, pid: nat, c: Choice, s: Signal)
    requires SendInv(sys) && OnceInv(sys, s) && pid in sys.procs
    ensures Tally(Advance(sys, pid, c).sends, s) <= 1
  {
    var p := sys.procs[pid];
    assert SenderKnows(sys, p.sig, p.pc) && (p.sig == s ==> FirstTry(p.pc));
  }

  lemma OnceStep(sys: Sys, e: Event, s: Signal)
    requires SendInv(sys) && OnceInv(sys, s) && !RefusesStops(sys, e, s)
    ensures OnceInv(Step(sys, e), s)
  {
    var next := Step(sys, e);
    if e.Run? && e.pid in sys.procs {
      OneSendStep(sys, e.pid, e.choice, s);
    }
    forall pid | pid in next.procs && next.procs[pid].sig == s ensures FirstTry(next.procs[pid].pc) {
      if e.Run? && e.pid in sys.procs && pid == e.pid {
        FirstTryStep(sys, pid, sys.procs[pid], e.choice);
      }
    }
  }

  lemma {:induction false} OnceRun(sys: Sys, es: seq<Event>, s: Signal)
    requires SendInv(sys) && OnceInv(sys, s) && Serialised(sys, es) && StopsAccepted(sys, es, s)
    ensures OnceInv(Exec(sys, es), s)
    decreases |es|
  {
    if es != [] {
      SendStep(sys, es[0]);
      OnceStep(sys, es[0], s);
      OnceRun(Step(sys, es[0]), es[1..], s);
    }
  }

  /** Serialised attempts send a signal at most once, as long as no order for it is refused for its stops. */
  lemma SentAtMostOnce(sys: Sys, es: seq<Event>, s: Signal)
    requires Initial(sys) && Serialised(sys, es) && StopsAccepted(sys, es, s)
    ensures Tally(Exec(sys, es).sends, s) <= 1
  {
    forall t ensures Sent(sys, t) && OneAttempt(sys, t) {
      assert FillsKnown(sys, t);
    }
    OnceRun(sys, es, s);
  }

  // ----- with one: two sends -----

  const STOPS := YES.(outcome := Refused(true))

  lemma {:induction false} RunsSerialised(sys: Sys, es: seq<Event>)
    requires forall i | 0 <= i < |es| :: es[i].Run?
    ensures Serialised(sys, es)
    decreases |es|
  {
    if es != [] {
      RunsSerialised(Step(sys, es[0]), es[1..]);
    }
  }

  lemma SingleSpawnSerialised(sys: Sys, es: seq<Event>)
    requires Initial(sys) && SingleSpawn(es)
    ensures Serialised(sys, es)
  {
    RunsSerialised(Step(sys, es[0]), es[1..]);
  }

  /** After es the one attempt on s stands at pc, over the tables db and with the given sends; nothing has filled. */
  predicate At(sys: Sys, es: seq<Event>, s: Signal, pc: Pc, db: Db, sends: map<Signal, nat>) {
    && Stands(Exec(sys, es), 0, s, true, pc, db) && Exec(sys, es).sends == sends && Tally(Exec(sys, es).fills, s) == 0
    && SingleSpawn(es)
  }

  lemma SameProc(sys: Sys, p: Proc, c: Choice)
    ensures NextPc(sys, 0, p, c) == NextPc(sys, 0, Proc(p.sig, p.attempt, p.pc), c)
  {
  }

  lemma Onward(sys: Sys, es: seq<Event>, s: Signal, pc: Pc, db: Db, sends: map<Signal, nat>, c: Choice, next: Pc)
    returns (longer: seq<Event>)
    requires At(sys, es, s, pc, db, sends) && NextPc(Exec(sys, es), 0, Proc(s, true, pc), c) == Some(next)
    requires !pc.Lock? && !pc.ReserveRead? && !pc.ReserveInsert? && !pc.Order?
    ensures At(sys, longer, s, next, NextDb(db, s, pc, c), sends)
  {
    SameProc(Exec(sys, es), Exec(sys, es).procs[0], c);
    longer := Move(sys, es, 0, c, next);
  }

  lemma ReadsPending(sys: Sys, s: Signal) returns (es: seq<Event>)
    requires Initial(sys) && Resumable(sys.db, s)
    ensures At(sys, es, s, GateIntent(1, ORDER, Some(Pending)), sys.db, map[])
  {
    assert FillsKnown(sys, s);
    es := Begin(sys, [], 0, s, Attempt(1, ORDER));
    es := Onward(sys, es, s, GatePosition(1, ORDER), sys.db, map[], YES, GateIntent(1, ORDER, Some(Pending)));
  }

  lemma ReachesLiveGate(sys: Sys, es: seq<Event>, s: Signal, db: Db) returns (longer: seq<Event>)
    requires At(sys, es, s, ResumeCheck, db, map[])
    ensures At(sys, longer, s, LiveGate, db, map[])
  {
    longer := Onward(sys, es, s, ResumeCheck, db, map[], YES, LiveGate);
  }

  /** A single attempt on a resumable pair passes the gate. */
  lemma ResumesPair(sys: Sys, s: Signal) returns (es: seq<Event>)
    requires Initial(sys) && Resumable(sys.db, s)
    ensures At(sys, es, s, LiveGate, sys.db, map[])
  {
    es := ReadsPending(sys, s);
    es := Onward(sys, es, s, GateIntent(1, ORDER, Some(Pending)), sys.db, map[], YES, ResumeCheck);
    es := ReachesLiveGate(sys, es, s, sys.db);
  }

  lemma RefreshesFirst(sys: Sys, es: seq<Event>, s: Signal, db: Db) returns (longer: seq<Event>)
    requires At(sys, es, s, PreSubmit(0), db, map[])
    ensures At(sys, longer, s, LiveGate, NextDb(db, s, Refresh(0, ORDER), YES), map[])
  {
    longer := Onward(sys, es, s, PreSubmit(0), db, map[], YES, Refresh(0, ORDER));
    longer := Onward(sys, longer, s, Refresh(0, ORDER), db, map[], YES, LiveGate);
  }

  /** A single attempt on a signal without rows creates its pair. */
  lemma CreatesPair(sys: Sys, s: Signal) returns (es: seq<Event>)
    requires Initial(sys) && s !in sys.db.positions && s !in sys.db.intents
    ensures At(sys, es, s, LiveGate, InsertPair(sys.db, s, ORDER, 0), map[])
  {
    assert FillsKnown(sys, s);
    var db := InsertPair(sys.db, s, ORDER, 0);
    es := FreshCreates(sys, s, ORDER);
    es := RefreshesFirst(sys, es, s, db);
    assert RefreshParams(db, s, ORDER) == db;
  }

  /** The adapter finds no position of the signal. */
  lemma LooksUp(sys: Sys, es: seq<Event>, s: Signal, n: nat, db: Db, sends: map<Signal, nat>)
    returns (longer: seq<Event>)
    requires At(sys, es, s, Send(n), db, sends)
    ensures At(sys, longer, s, Order(n), db, sends)
  {
    longer := Onward(sys, es, s, Send(n), db, sends, YES, Order(n));
  }

  lemma MarksSubmitted(sys: Sys, es: seq<Event>, s: Signal, db: Db) returns (longer: seq<Event>)
    requires At(sys, es, s, SubmitRead(0), db, map[]) && Resumable(db, s)
    ensures At(sys, longer, s, Send(0), SetState(db, s, Submitted), map[])
  {
    longer := Onward(sys, es, s, SubmitRead(0), db, map[], YES, SubmitWrite(0));
    longer := Onward(sys, longer, s, SubmitWrite(0), db, map[], YES, Send(0));
  }

  /** It marks the pair submitted, finds no position of the signal and is about to order. */
  lemma AboutToOrder(sys: Sys, es: seq<Event>, s: Signal, db: Db) returns (longer: seq<Event>)
    requires At(sys, es, s, LiveGate, db, map[]) && Resumable(db, s)
    ensures At(sys, longer, s, Order(0), SetState(db, s, Submitted), map[])
  {
    longer := Onward(sys, es, s, LiveGate, db, map[], YES, SubmitRead(0));
    longer := MarksSubmitted(sys, longer, s, db);
    longer := LooksUp(sys, longer, s, 0, SetState(db, s, Submitted), map[]);
  }

  lemma AsksAfterRefusal(sys: Sys, es: seq<Event>, s: Signal, db: Db, sends: map<Signal, nat>)
    returns (longer: seq<Event>)
    requires At(sys, es, s, Reply(0, Refused(true)), db, sends)
    ensures At(sys, longer, s, PreSubmit(1), db, sends)
  {
    longer := Onward(sys, es, s, Reply(0, Refused(true)), db, sends, STOPS, Adopt(RefusedReply(0, true)));
    longer := Onward(sys, longer, s, Adopt(RefusedReply(0, true)), db, sends, NO, PreSubmit(1));
  }

  /** The order is refused for its stops, the broker holds nothing, and the attempt recomputes its stops. */
  lemma Refreshes(sys: Sys, es: seq<Event>, s: Signal, db: Db, sends: map<Signal, nat>) returns (longer: seq<Event>)
    requires At(sys, es, s, Reply(0, Refused(true)), db, sends)
    ensures At(sys, longer, s, Refresh(1, ORDER), db, sends)
  {
    longer := AsksAfterRefusal(sys, es, s, db, sends);
    longer := Onward(sys, longer, s, PreSubmit(1), db, sends, YES, Refresh(1, ORDER));
  }

  lemma FindsSubmitted(sys: Sys, es: seq<Event>, s: Signal, db: Db, sends: map<Signal, nat>)
    returns (longer: seq<Event>)
    requires At(sys, es, s, SubmitRead(1), db, sends) && s in db.intents && db.intents[s].state.Submitted?
    ensures At(sys, longer, s, Send(1), db, sends)
  {
    longer := Onward(sys, es, s, SubmitRead(1), db, sends, YES, Send(1));
  }

  /** It finds the intent already SUBMITTED and goes straight back to the order. */
  lemma Resubmits(sys: Sys, es: seq<Event>, s: Signal, db: Db, sends: map<Signal, nat>) returns (longer: seq<Event>)
    requires At(sys, es, s, Reply(0, Refused(true)), db, sends)
    requires s in db.positions && s in db.intents && db.intents[s].state.Submitted?
    ensures At(sys, longer, s, Order(1), RefreshParams(db, s, ORDER), sends)
  {
    var refreshed := RefreshParams(db, s, ORDER);
    longer := Refreshes(sys, es, s, db, sends);
    longer := Onward(sys, longer, s, Refresh(1, ORDER), db, sends, YES, SubmitRead(1));
    longer := FindsSubmitted(sys, longer, s, refreshed, sends);
    longer := LooksUp(sys, longer, s, 1, refreshed, sends);
  }

  /** The order goes out and is refused for its stops, so nothing fills. */
  lemma Orders(sys: Sys, es: seq<Event>, s: Signal, n: nat, db: Db, sends: map<Signal, nat>)
    returns (longer: seq<Event>)
    requires At(sys, es, s, Order(n), db, sends)
    ensures At(sys, longer, s, Reply(n, Refused(true)), db, sends[s := Tally(sends, s) + 1])
  {
    longer := Then(sys, es, Run(0, STOPS));
  }

  /** A single attempt that reaches the live gate over a resumable pair can send twice. */
  lemma SendsTwice(sys: Sys, from: seq<Event>, s: Signal, db: Db) returns (es: seq<Event>)
    requires Initial(sys) && At(sys, from, s, LiveGate, db, map[]) && Resumable(db, s)
    ensures Serialised(sys, es) && Tally(Exec(sys, es).sends, s) == 2
  {
    var marked := SetState(db, s, Submitted);
    es := AboutToOrder(sys, from, s, db);
    es := Orders(sys, es, s, 0, marked, map[]);
    es := Resubmits(sys, es, s, marked, map[s := 1]);
    es := Orders(sys, es, s, 1, RefreshParams(marked, s, ORDER), map[s := 1]);
    SingleSpawnSerialised(sys, es);
  }

  /** From a resumable pair, or from no rows at all, a single attempt can send its signal twice. */
  lemma SecondSendHappens(sys: Sys, s: Signal) returns (es: seq<Event>)
    requires Initial(sys) && Sendable(sys.db, s)
    ensures Serialised(sys, es) && Tally(Exec(sys, es).sends, s) == 2
  {
    if Resumable(sys.db, s) {
      es := ResumesPair(sys, s);
      es := SendsTwice(sys, es, s, sys.db);
    } else {
      es := CreatesPair(sys, s);
      es := SendsTwice(sys, es, s, InsertPair(sys.db, s, ORDER, 0));
    }
  }

  /** Serialised attempts can send a signal twice exactly when it has no rows yet or its pair is still resumable;
      by SentAtMostOnce, every run that does so contains a refusal for stops. */
  lemma SecondSendExactly(sys: Sys, s: Signal)
    requires Initial(sys)
    ensures (exists es :: Serialised(sys, es) && Tally(Exec(sys, es).sends, s) >= 2) <==> Sendable(sys.db, s)
  {
    if Sendable(sys.db, s) {
      var es := SecondSendHappens(sys, s);
    } else {
      forall es ensures Tally(Exec(sys, es).sends, s) < 2 {
        if Lone(sys.db, s) {
          LoneRun(sys, es, s, 0, Tally(sys.fills, s));
        } else {
          ShutRun(sys, es, s, 0, Tally(sys.fills, s));
        }
      }
    }
  }
}
