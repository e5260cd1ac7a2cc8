/**
 When a REJECTED intent can stand over an OPEN position: fail-closed marks the intent rejected even when its guarded
 update of the position matched no row.
 */
module FailClosed {
  import opened Wrappers
  import opened ExecutionModel
  import opened Protocol
  import opened Agreement
  import opened Helpers

  /** The intent is REJECTED over an OPEN position. */
  predicate RejectedOverOpen(db: Db, s: Signal) {
    BothRows(db, s) && db.intents[s].state.IntentRejected? && db.positions[s].status.Open?
  }

  /** The guarded update of fail-closed matches no row, because the position is OPEN by now. */
  predicate Missed(sys: Sys, e: Event, s: Signal) {
    && e.Run? && e.pid in sys.procs && sys.procs[e.pid].sig == s && sys.procs[e.pid].pc.FailGuard?
    && s in sys.db.positions && sys.db.positions[s].status.Open?
  }

  predicate NeverMissed(sys: Sys, es: seq<Event>, s: Signal)
    decreases |es|
  {
    es == [] || (!Missed(sys, es[0], s) && NeverMissed(Step(sys, es[0]), es[1..], s))
  }

  // ----- runs in which it never misses -----

  predicate Gone(st: Status) {
    st.Rejected? || st.Closed? || st.CloseRequested?
  }

  /** The order of s is past opening, or no intent will ever be written for s. */
  predicate Over(db: Db, s: Signal) {
    s in db.positions && (s in db.intents ==> Gone(db.positions[s].status))
  }

  predicate Consistent(db: Db, s: Signal) {
    BothRows(db, s) && db.intents[s].state.IntentRejected? ==> Gone(db.positions[s].status)
  }

  /** What a process that may write a rejection, or an unguarded fill, knows. */
  predicate Aware(db: Db, s: Signal, pc: Pc) {
    match pc
    case FailGuard => s in db.positions
    case MarkRead(to, _) => to.IntentRejected? ==> Over(db, s)
    case MarkWrite(to, _) => to.IntentRejected? ==> Over(db, s)
    case ForceWrite(to) => to.IntentRejected? ==> Over(db, s)
    case SweepSync => Over(db, s)
    case LegacyWrite(_) => s in db.positions && s !in db.intents
    case _ => true
  }

  ghost predicate AwareInv(sys: Sys, s: Signal) {
    && Consistent(sys.db, s)
    && forall pid | pid in sys.procs && sys.procs[pid].sig == s :: Aware(sys.db, s, sys.procs[pid].pc)
  }

  /** Every write keeps what the others know. */
  lemma AwareStays(db: Db, s: Signal, pc: Pc, c: Choice, t: Signal, known: Pc)
    requires s == t ==> Aware(db, s, pc)
    requires Aware(db, t, known)
    ensures Aware(NextDb(db, s, pc, c), t, known)
  {
    var next := NextDb(db, s, pc, c);
    assert Over(db, t) ==> Over(next, t);
  }

  lemma ConsistentStays(db: Db, s: Signal, pc: Pc, c: Choice, t: Signal)
    requires Consistent(db, t) && (s == t ==> Aware(db, s, pc))
    ensures Consistent(NextDb(db, s, pc, c), t)
  {
  }

  lemma BecomesAware(sys: Sys, pid: nat, p: Proc, c: Choice)
    requires Aware(sys.db, p.sig, p.pc) && NextPc(sys, pid, p, c).Some?
    requires p.pc.FailGuard? ==> !sys.db.positions[p.sig].status.Open?
    ensures Aware(NextDb(sys.db, p.sig, p.pc, c), p.sig, NextPc(sys, pid, p, c).value)
  {
  }

  lemma AwareStep(sys: Sys, e: Event, s: Signal)
    requires AwareInv(sys, s) && !Missed(sys, e, s)
    ensures AwareInv(Step(sys, e), s)
  {
    if e.Run? && e.pid in sys.procs {
      var p, next := sys.procs[e.pid], Step(sys, e);
      ConsistentStays(sys.db, p.sig, p.pc, e.choice, s);
      forall pid | pid in next.procs && next.procs[pid].sig == s ensures Aware(next.db, s, next.procs[pid].pc) {
        assert Aware(sys.db, s, sys.procs[pid].pc);
        if pid == e.pid {
          BecomesAware(sys, pid, p, e.choice);
        } else {
          AwareStays(sys.db, p.sig, p.pc, e.choice, s, sys.procs[pid].pc);
        }
      }
    }
  }

  lemma {:induction false} AwareRun(sys: Sys, es: seq<Event>, s: Signal)
    requires AwareInv(sys, s) && NeverMissed(sys, es, s)
    ensures AwareInv(Exec(sys, es), s)
    decreases |es|
  {
    if es != [] {
      AwareStep(sys, es[0], s);
      AwareRun(Step(sys, es[0]), es[1..], s);
    }
  }

  /** In every run in which fail-closed never finds the position OPEN at its guarded update, a REJECTED intent's
      position is REJECTED, CLOSED or CLOSE_REQUESTED. */
  lemma RejectedMeansGone(sys: Sys, es: seq<Event>, s: Signal)
    requires Initial(sys) && Consistent(sys.db, s) && NeverMissed(sys, es, s)
    ensures Consistent(Exec(sys, es).db, s) && !RejectedOverOpen(Exec(sys, es).db, s)
  {
    AwareRun(sys, es, s);
  }

  // ----- what a miss leads to -----

  /** After a missed update the helper goes on to its mark with the rows unchanged. */
  lemma MissGoesOn(sys: Sys, pid: nat, c: Choice, s: Signal)
    requires Missed(sys, Run(pid, c), s)
    ensures var next := Step(sys, Run(pid, c));
            && next.db == sys.db && pid in next.procs
            && next.procs[pid] == sys.procs[pid].(pc := MarkRead(IntentRejected, Stop))
  {
  }

  /** Its read lets the mark through exactly when the transition table allows it. */
  lemma MarkGoesOn(sys: Sys, pid: nat, c: Choice, s: Signal)
    requires pid in sys.procs && sys.procs[pid].sig == s && sys.procs[pid].pc == MarkRead(IntentRejected, Stop)
    requires s in sys.db.intents && !sys.db.intents[s].state.IntentRejected?
    ensures var next := Step(sys, Run(pid, c));
            && next.db == sys.db
            && (pid in next.procs <==> CanTransition(sys.db.intents[s].state, IntentRejected))
            && (pid in next.procs ==> next.procs[pid].pc == MarkWrite(IntentRejected, Stop))
  {
  }

  /** Its write contradicts the position exactly when the position is still OPEN. */
  lemma MarkContradicts(sys: Sys, pid: nat, c: Choice, s: Signal)
    requires pid in sys.procs && sys.procs[pid].sig == s && sys.procs[pid].pc == MarkWrite(IntentRejected, Stop)
    requires BothRows(sys.db, s)
    ensures RejectedOverOpen(Step(sys, Run(pid, c)).db, s) <==> sys.db.positions[s].status.Open?
  {
  }

  /** A miss that nothing interrupts contradicts the rows exactly when the transition table allows the mark. */
  lemma MissContradictsExactly(sys: Sys, pid: nat, c: Choice, s: Signal) returns (n: nat)
    requires Missed(sys, Run(pid, c), s) && s in sys.db.intents && !sys.db.intents[s].state.IntentRejected?
    ensures pid !in Alone(sys, pid, c, n).procs
    ensures RejectedOverOpen(Alone(sys, pid, c, n).db, s) <==> CanTransition(sys.db.intents[s].state, IntentRejected)
  {
    var one := Step(sys, Run(pid, c));
    MissGoesOn(sys, pid, c, s);
    AloneOnce(sys, pid, c);
    var m := MarkAlone(one, pid, c, IntentRejected, Stop);
    AloneTwice(sys, pid, c, 1, m);
    n := 1 + m;
    assert RowOf(one.db, s) == RowOf(sys.db, s);
    RowsOf(Alone(one, pid, c, m).db, s);
  }

  lemma RowsOf(db: Db, s: Signal)
    ensures var r := RowOf(db, s);
            RejectedOverOpen(db, s)
            <==> r.position.Some? && r.intent.Some? && r.intent.value.state.IntentRejected?
                 && r.position.value.status.Open?
  {
  }
}
