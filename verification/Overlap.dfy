/**
 What happens when two attempts on one signal do overlap: two fills are possible exactly when the signal has no
 rows yet or its pair of rows is still resumable.
 */
module Overlap {
  import opened Wrappers
  import opened ExecutionModel
  import opened Protocol
  import opened SingleSend

  /** The state in which the duplicate gate lets an attempt resume the existing pair. */
  predicate Resumable(db: Db, s: Signal) {
    && s in db.positions && s in db.intents
    && db.positions[s].status.Pending? && db.intents[s].state.Created? && !db.intents[s].submitted
  }

  // ----- not resumable: no run ever sends again -----

  predicate Shut(db: Db, s: Signal) {
    s in db.positions && s in db.intents && !Resumable(db, s)
  }

  /** A process on a shut signal is at its gate, which will block it, or off the sending path. */
  predicate Harmless(db: Db, s: Signal, pc: Pc) {
    && (pc.GatePosition? || (pc.GateIntent? && (pc.status == Some(Pending) ==> GateClosed(db, s))) || !SendingPath(pc))
    && ((pc.MarkRead? || pc.MarkWrite? || pc.ForceWrite?) ==> !pc.to.Created?)
  }

  ghost predicate ShutInv(sys: Sys, s: Signal, sends: nat, fills: nat) {
    && Shut(sys.db, s) && Tally(sys.sends, s) == sends && Tally(sys.fills, s) == fills
    && forall pid | pid in sys.procs && sys.procs[pid].sig == s :: Harmless(sys.db, s, sys.procs[pid].pc)
  }

  lemma ShutStays(db: Db, s: Signal, pc: Pc, c: Choice, t: Signal)
    requires Shut(db, t) && (s == t ==> Harmless(db, s, pc))
    ensures Shut(NextDb(db, s, pc, c), t)
    ensures GateClosed(db, t) ==> GateClosed(NextDb(db, s, pc, c), t)
  {
  }

  lemma HarmlessStep(sys: Sys, pid: nat, p: Proc, c: Choice)
    requires Shut(sys.db, p.sig) && Harmless(sys.db, p.sig, p.pc)
    requires NextPc(sys, pid, p, c).Some?
    ensures Harmless(NextDb(sys.db, p.sig, p.pc, c), p.sig, NextPc(sys, pid, p, c).value)
  {
    if !SendingPath(p.pc) {
      HelperStep(sys, pid, p, c);
    }
  }

  lemma ShutStep(sys: Sys, e: Event, s: Signal, sends: nat, fills: nat)
    requires ShutInv(sys, s, sends, fills)
    ensures ShutInv(Step(sys, e), s, sends, fills)
  {
    if e.Run? && e.pid in sys.procs {
      var p := sys.procs[e.pid];
      ShutStays(sys.db, p.sig, p.pc, e.choice, s);
      var next := Step(sys, e);
      forall pid | pid in next.procs && next.procs[pid].sig == s ensures Harmless(next.db, s, next.procs[pid].pc) {
        assert sys.procs[pid].sig == s;
        assert Harmless(sys.db, s, sys.procs[pid].pc);
        if pid == e.pid {
          HarmlessStep(sys, pid, p, e.choice);
        }
      }
    }
  }

  /** However many attempts overlap, a signal whose pair is not resumable is never sent again. */
  lemma {:induction false} ShutRun(sys: Sys, es: seq<Event>, s: Signal, sends: nat, fills: nat)
    requires ShutInv(sys, s, sends, fills)
    ensures ShutInv(Exec(sys, es), s, sends, fills)
    decreases |es|
  {
    if es != [] {
      ShutStep(sys, es[0], s, sends, fills);
      ShutRun(Step(sys, es[0]), es[1..], s, sends, fills);
    }
  }

  // ----- a row without its partner: no run ever sends -----

  /** A position without an intent, or an intent without a position. */
  predicate Lone(db: Db, s: Signal) {
    (s in db.positions) != (s in db.intents)
  }

  /** A process on a lone row never gets past the create transaction. */
  predicate Stuck(db: Db, s: Signal, pc: Pc) {
    || pc.GatePosition? || (pc.GateIntent? && (pc.status.Some? ==> s in db.positions))
    || pc.Lock? || pc.ReserveRead? || pc.ReserveInsert? || !SendingPath(pc)
  }

  ghost predicate LoneInv(sys: Sys, s: Signal, sends: nat, fills: nat) {
    && Lone(sys.db, s) && Tally(sys.sends, s) == sends && Tally(sys.fills, s) == fills
    && forall pid | pid in sys.procs && sys.procs[pid].sig == s :: Stuck(sys.db, s, sys.procs[pid].pc)
  }

  lemma LoneStays(db: Db, s: Signal, pc: Pc, c: Choice, t: Signal)
    requires Lone(db, t)
    ensures var next := NextDb(db, s, pc, c);
            Lone(next, t) && (t in db.positions <==> t in next.positions)
  {
  }

  lemma StuckStep(sys: Sys, pid: nat, p: Proc, c: Choice)
    requires Lone(sys.db, p.sig) && Stuck(sys.db, p.sig, p.pc)
    requires NextPc(sys, pid, p, c).Some?
    ensures Stuck(NextDb(sys.db, p.sig, p.pc, c), p.sig, NextPc(sys, pid, p, c).value)
  {
  }

  lemma LoneStep(sys: Sys, e: Event, s: Signal, sends: nat, fills: nat)
    requires LoneInv(sys, s, sends, fills)
    ensures LoneInv(Step(sys, e), s, sends, fills)
  {
    if e.Run? && e.pid in sys.procs {
      var p := sys.procs[e.pid];
      LoneStays(sys.db, p.sig, p.pc, e.choice, s);
      var next := Step(sys, e);
      forall pid | pid in next.procs && next.procs[pid].sig == s ensures Stuck(next.db, s, next.procs[pid].pc) {
        assert sys.procs[pid].sig == s;
        assert Stuck(sys.db, s, sys.procs[pid].pc);
        if pid == e.pid {
          StuckStep(sys, pid, p, e.choice);
        }
      }
    }
  }

  lemma {:induction false} LoneRun(sys: Sys, es: seq<Event>, s: Signal, sends: nat, fills: nat)
    requires LoneInv(sys, s, sends, fills)
    ensures LoneInv(Exec(sys, es), s, sends, fills)
    decreases |es|
  {
    if es != [] {
      LoneStep(sys, es[0], s, sends, fills);
      LoneRun(Step(sys, es[0]), es[1..], s, sends, fills);
    }
  }

  // ----- resumable: two attempts that both pass the gate both fill -----

  /** A run is extended by one event. */
  lemma ExecSnoc(sys: Sys, es: seq<Event>, e: Event)
    ensures Exec(sys, es + [e]) == Step(Exec(sys, es), e)
    decreases |es|
  {
    if es == [] {
      assert [] + [e] == [e];
      assert Exec(Step(sys, e), []) == Step(sys, e);
    } else {
      assert (es + [e])[1..] == es[1..] + [e];
      ExecSnoc(Step(sys, es[0]), es[1..], e);
    }
  }

  lemma Then(sys: Sys, es: seq<Event>, e: Event) returns (longer: seq<Event>)
    ensures longer == es + [e]
    ensures Exec(sys, longer) == Step(Exec(sys, es), e)
  {
    ExecSnoc(sys, es, e);
    longer := es + [e];
  }

  const FILL := Fill(1, 1.0)

  /** The environment lets checks pass; a send fills but its reply stays unclear. */
  const YES := Choice(true, true, FILL, Unclear, true, Params(1.0, 1.0, Some(1.0)), 0)

  /** A fresh attempt passes the gate of a resumable pair without writing anything. */
  lemma PassesGate(sys: Sys, es: seq<Event>, pid: nat, s: Signal) returns (longer: seq<Event>)
    requires Resumable(Exec(sys, es).db, s) && pid !in Exec(sys, es).procs
    ensures var a, b := Exec(sys, es), Exec(sys, longer);
            b == a.(procs := a.procs[pid := Proc(s, true, ResumeCheck)])
  {
    ghost var a := Exec(sys, es);
    var q := Params(1.0, 1.0, Some(1.0));
    longer := Then(sys, es, Spawn(pid, s, Attempt(1, q)));
    longer := Then(sys, longer, Run(pid, YES));
    assert Exec(sys, longer) == a.(procs := a.procs[pid := Proc(s, true, GateIntent(1, q, Some(Pending)))]);
    longer := Then(sys, longer, Run(pid, YES));
  }

  /** Two steps of a resumed attempt lead to its submit. */
  lemma ReachesSubmit(sys: Sys, es: seq<Event>, pid: nat, s: Signal) returns (longer: seq<Event>)
    requires pid in Exec(sys, es).procs && Exec(sys, es).procs[pid] == Proc(s, true, ResumeCheck)
    ensures var a, b := Exec(sys, es), Exec(sys, longer);
            b == a.(procs := a.procs[pid := Proc(s, true, SubmitRead(0))])
  {
    ghost var a := Exec(sys, es);
    longer := Then(sys, es, Run(pid, YES));
    assert Exec(sys, longer) == a.(procs := a.procs[pid := Proc(s, true, LiveGate)]);
    longer := Then(sys, longer, Run(pid, YES));
  }

  /** It marks the intent, or finds it marked, and the adapter's lookup finds no position of the signal. */
  lemma LooksInVain(sys: Sys, es: seq<Event>, pid: nat, s: Signal) returns (longer: seq<Event>)
    requires pid in Exec(sys, es).procs && Exec(sys, es).procs[pid] == Proc(s, true, SubmitRead(0))
    requires s in Exec(sys, es).db.intents && Tally(Exec(sys, es).fills, s) == 0
    requires Exec(sys, es).db.intents[s].state.Created? || Exec(sys, es).db.intents[s].state.Submitted?
    ensures var a, b := Exec(sys, es), Exec(sys, longer);
            && b.fills == a.fills && s in b.db.intents && b.db.intents[s].state.Submitted?
            && b.procs == a.procs[pid := Proc(s, true, Order(0))]
  {
    ghost var a := Exec(sys, es);
    ghost var created := Exec(sys, es).db.intents[s].state.Created?;
    longer := Then(sys, es, Run(pid, YES));
    if created {
      assert Exec(sys, longer).procs == a.procs[pid := Proc(s, true, SubmitWrite(0))];
      longer := Then(sys, longer, Run(pid, YES));
    }
    assert Exec(sys, longer).procs == a.procs[pid := Proc(s, true, Send(0))];
    longer := Then(sys, longer, Run(pid, YES));
  }

  /** The order fills. */
  lemma OrderFills(sys: Sys, es: seq<Event>, pid: nat, s: Signal) returns (longer: seq<Event>)
    requires pid in Exec(sys, es).procs && Exec(sys, es).procs[pid] == Proc(s, true, Order(0))
    ensures var a, b := Exec(sys, es), Exec(sys, longer);
            && Tally(b.fills, s) == Tally(a.fills, s) + 1
            && forall other | other in a.procs && other != pid :: other in b.procs && b.procs[other] == a.procs[other]
  {
    longer := Then(sys, es, Run(pid, YES));
  }

  /** Both attempts pass the gate before either marks the intent, and both look the signal up before either order
      fills; so both order, and both orders fill. */
  lemma BothSend(sys: Sys, from: seq<Event>, s: Signal) returns (es: seq<Event>)
    requires Resumable(Exec(sys, from).db, s) && Exec(sys, from).procs == map[] && Tally(Exec(sys, from).fills, s) == 0
    ensures Tally(Exec(sys, es).fills, s) >= 2
  {
    es := PassesGate(sys, from, 0, s);
    es := PassesGate(sys, es, 1, s);
    es := ReachesSubmit(sys, es, 0, s);
    es := LooksInVain(sys, es, 0, s);
    es := ReachesSubmit(sys, es, 1, s);
    es := LooksInVain(sys, es, 1, s);
    es := OrderFills(sys, es, 0, s);
    es := OrderFills(sys, es, 1, s);
  }

  // ----- no rows yet: an attempt that crashes after its create leaves a resumable pair -----

  /** Only the first event starts an activity. */
  predicate SingleSpawn(es: seq<Event>) {
    es != [] && forall i | 1 <= i < |es| :: es[i].Run?
  }

  /** A fresh attempt passes the gate and takes the lock. */
  lemma FreshLocks(sys: Sys, s: Signal, q: Params, limit: nat) returns (es: seq<Event>)
    requires Initial(sys) && s !in sys.db.positions && s !in sys.db.intents
    ensures SingleSpawn(es)
    ensures Exec(sys, es)
            == sys.(procs := map[0 := Proc(s, true, ReserveRead(limit, q))], locks := map[s.user := 0])
  {
    es := Then(sys, [], Spawn(0, s, Attempt(limit, q)));
    es := Then(sys, es, Run(0, YES));
    assert Exec(sys, es) == sys.(procs := map[0 := Proc(s, true, GateIntent(limit, q, None))]);
    es := Then(sys, es, Run(0, YES));
    assert Exec(sys, es) == sys.(procs := map[0 := Proc(s, true, Lock(limit, q))]);
    es := Then(sys, es, Run(0, YES));
  }

  /** It creates its pair. */
  lemma FreshCreates(sys: Sys, s: Signal, q: Params) returns (es: seq<Event>)
    requires Initial(sys) && s !in sys.db.positions && s !in sys.db.intents
    ensures SingleSpawn(es)
    ensures Exec(sys, es)
            == sys.(db := InsertPair(sys.db, s, q, 0), procs := map[0 := Proc(s, true, PreSubmit(0))])
  {
    var limit := Consumed(sys.db, s.user) + 1;
    es := FreshLocks(sys, s, q, limit);
    es := Then(sys, es, Run(0, YES));
    assert Exec(sys, es) == sys.(procs := map[0 := Proc(s, true, ReserveInsert(limit, q, Consumed(sys.db, s.user)))],
                                 locks := map[s.user := 0]);
    es := Then(sys, es, Run(0, YES));
  }

  lemma CreatesAndCrashes(sys: Sys, s: Signal) returns (es: seq<Event>)
    requires Initial(sys) && s !in sys.db.positions && s !in sys.db.intents
    ensures Resumable(Exec(sys, es).db, s) && Exec(sys, es).db.intents[s].linked
    ensures Exec(sys, es).procs == map[] && Exec(sys, es).fills == sys.fills
  {
    es := FreshCreates(sys, s, Params(1.0, 1.0, Some(1.0)));
    es := Then(sys, es, Crash(0));
  }

  // ----- exactly when -----

  /** An attempt that starts now can get as far as ordering. */
  predicate Sendable(db: Db, s: Signal) {
    Resumable(db, s) || (s !in db.positions && s !in db.intents)
  }

  /** Overlapping attempts can fill twice exactly when the signal has no rows yet or its pair is still resumable. */
  lemma DoubleFillExactlyWhenSendable(sys: Sys, s: Signal)
    requires Initial(sys)
    ensures (exists es :: Tally(Exec(sys, es).fills, s) >= 2) <==> Sendable(sys.db, s)
  {
    assert FillsKnown(sys, s);
    if Resumable(sys.db, s) {
      assert Exec(sys, []) == sys;
      var es := BothSend(sys, [], s);
    } else if s !in sys.db.positions && s !in sys.db.intents {
      var from := CreatesAndCrashes(sys, s);
      var es := BothSend(sys, from, s);
    } else {
      forall es ensures Tally(Exec(sys, es).fills, s) < 2 {
        if Lone(sys.db, s) {
          LoneRun(sys, es, s, 0, Tally(sys.fills, s));
        } else {
          ShutRun(sys, es, s, 0, Tally(sys.fills, s));
        }
      }
    }
  }
}
