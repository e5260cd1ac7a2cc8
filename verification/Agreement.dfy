/**
 What a signal's position and intent agree on in every interleaving: the frozen order parameters while
 the order is pending, and what a PERSISTED intent says about its position.
 */
module Agreement {
  import opened Wrappers
  import opened ExecutionModel
  import opened Protocol

  /** The position has left PENDING and OPEN_REQUESTED for good. */
  predicate Past(db: Db, s: Signal) {
    s in db.positions && !Rejectable(db.positions[s].status)
  }

  predicate SettledRow(db: Db, s: Signal) {
    s in db.positions && Settled(db.positions[s].status)
  }

  predicate BothRows(db: Db, s: Signal) {
    s in db.positions && s in db.intents
  }

  /** What a mark helper's caller relies on. */
  predicate AfterKnows(db: Db, s: Signal, after: After) {
    match after
    case OpenNext(_, late) => late ==> s in db.positions
    case PersistNext(_) => SettledRow(db, s)
    case LateNext => Past(db, s)
    case _ => true
  }

  /** What a process still knows, at each program counter, about rows that others keep writing. */
  predicate Knows(db: Db, s: Signal, pc: Pc) {
    match pc
    case GateIntent(_, _, status) => status.Some? ==> s in db.positions
    case ResumeCheck => BothRows(db, s)
    case PreSubmit(_) => BothRows(db, s)
    case Refresh(_, _) => BothRows(db, s)
    case LiveGate => BothRows(db, s)
    case SubmitRead(_) => BothRows(db, s)
    case SubmitWrite(_) => BothRows(db, s)
    case Send(_) => BothRows(db, s)
    case Order(_) => BothRows(db, s)
    case Reply(_, _) => BothRows(db, s)
    case Adopt(caller) => (caller.Pass? ==> s in db.positions) && (caller.RefusedReply? ==> BothRows(db, s))
    case OpenGuard(_, late) => late ==> s in db.positions
    case ConfirmCheck(_) => SettledRow(db, s)
    case MarkRead(to, after) => (to.Persisted? ==> SettledRow(db, s)) && AfterKnows(db, s, after)
    case MarkWrite(to, after) => (to.Persisted? ==> SettledRow(db, s)) && AfterKnows(db, s, after)
    case LateRead => Past(db, s)
    case LateWrite => Past(db, s)
    case ForceWrite(to) => to.Persisted? ==> SettledRow(db, s)
    case ModifyWrite(_) => Past(db, s)
    case _ => true
  }

  /** While the order is pending, the position holds exactly what its intent requested, and no broker ticket. */
  predicate Frozen(db: Db, s: Signal) {
    BothRows(db, s) && db.positions[s].status.Pending? ==>
      db.positions[s].params == db.intents[s].requested && db.positions[s].ticket.None?
  }

  /** A PERSISTED intent never has an order still waiting to be sent. */
  predicate PersistedPast(db: Db, s: Signal) {
    BothRows(db, s) && db.intents[s].state.Persisted? ==> Past(db, s)
  }

  /** The defect: PERSISTED over a REJECTED position. */
  predicate Broken(db: Db, s: Signal) {
    BothRows(db, s) && db.intents[s].state.Persisted? && !Settled(db.positions[s].status)
  }

  ghost predicate AgreementInv(sys: Sys) {
    && (forall s :: Frozen(sys.db, s) && PersistedPast(sys.db, s))
    && (forall pid | pid in sys.procs :: Knows(sys.db, sys.procs[pid].sig, sys.procs[pid].pc))
  }

  /** Other processes' writes cannot invalidate what a process knows. */
  lemma KnowledgeIsStable(db: Db, t: Signal, pc: Pc, c: Choice, s: Signal, known: Pc)
    requires Knows(db, s, known)
    ensures Knows(NextDb(db, t, pc, c), s, known)
  {
    var next := NextDb(db, t, pc, c);
    assert Past(db, s) && s in db.positions ==> Past(next, s);
    assert SettledRow(db, s) ==> SettledRow(next, s);
    assert BothRows(db, s) ==> BothRows(next, s);
  }

  /** The program counters of the helpers that several activities share. */
  predicate Shared(pc: Pc) {
    pc.Adopt? || pc.MarkRead? || pc.MarkWrite? || pc.OpenGuard? || pc.ConfirmCheck?
  }

  lemma SharedLearns(sys: Sys, pid: nat, p: Proc, c: Choice)
    requires Shared(p.pc) && Knows(sys.db, p.sig, p.pc) && NextPc(sys, pid, p, c).Some?
    ensures Knows(NextDb(sys.db, p.sig, p.pc, c), p.sig, NextPc(sys, pid, p, c).value)
  {
  }

  lemma OwnLearns(sys: Sys, pid: nat, p: Proc, c: Choice)
    requires !Shared(p.pc) && Knows(sys.db, p.sig, p.pc) && NextPc(sys, pid, p, c).Some?
    ensures Knows(NextDb(sys.db, p.sig, p.pc, c), p.sig, NextPc(sys, pid, p, c).value)
  {
  }

  lemma StepLearns(sys: Sys, pid: nat, p: Proc, c: Choice)
    requires Knows(sys.db, p.sig, p.pc)
    requires NextPc(sys, pid, p, c).Some?
    ensures Knows(NextDb(sys.db, p.sig, p.pc, c), p.sig, NextPc(sys, pid, p, c).value)
  {
    if Shared(p.pc) {
      SharedLearns(sys, pid, p, c);
    } else {
      OwnLearns(sys, pid, p, c);
    }
  }

  lemma SharedAgrees(db: Db, s: Signal, pc: Pc, c: Choice, t: Signal)
    requires Shared(pc) && Knows(db, s, pc)
    requires Frozen(db, t) && PersistedPast(db, t)
    ensures Frozen(NextDb(db, s, pc, c), t) && PersistedPast(NextDb(db, s, pc, c), t)
  {
  }

  lemma OwnAgrees(db: Db, s: Signal, pc: Pc, c: Choice, t: Signal)
    requires !Shared(pc) && Knows(db, s, pc)
    requires Frozen(db, t) && PersistedPast(db, t)
    ensures Frozen(NextDb(db, s, pc, c), t) && PersistedPast(NextDb(db, s, pc, c), t)
  {
  }

  /** No write breaks the agreement of the two rows it can reach. */
  lemma WriteAgrees(db: Db, s: Signal, pc: Pc, c: Choice, t: Signal)
    requires Knows(db, s, pc)
    requires Frozen(db, t) && PersistedPast(db, t)
    ensures Frozen(NextDb(db, s, pc, c), t) && PersistedPast(NextDb(db, s, pc, c), t)
  {
    if Shared(pc) {
      SharedAgrees(db, s, pc, c, t);
    } else {
      OwnAgrees(db, s, pc, c, t);
    }
  }

  lemma AgreementStep(sys: Sys, e: Event)
    requires AgreementInv(sys)
    ensures AgreementInv(Step(sys, e))
  {
    var next := Step(sys, e);
    if e.Run? && e.pid in sys.procs {
      var p := sys.procs[e.pid];
      forall t ensures Frozen(next.db, t) && PersistedPast(next.db, t) {
        WriteAgrees(sys.db, p.sig, p.pc, e.choice, t);
      }
      forall pid | pid in next.procs ensures Knows(next.db, next.procs[pid].sig, next.procs[pid].pc) {
        if pid == e.pid {
          StepLearns(sys, pid, p, e.choice);
        } else {
          KnowledgeIsStable(sys.db, p.sig, p.pc, e.choice, sys.procs[pid].sig, sys.procs[pid].pc);
        }
      }
    }
  }

  lemma {:induction false} AgreementRun(sys: Sys, es: seq<Event>)
    requires AgreementInv(sys)
    ensures AgreementInv(Exec(sys, es))
    decreases |es|
  {
    if es != [] {
      AgreementStep(sys, es[0]);
      AgreementRun(Step(sys, es[0]), es[1..]);
    }
  }

  lemma InitialAgrees(sys: Sys)
    requires Initial(sys)
    ensures AgreementInv(sys)
  {
    forall s ensures Frozen(sys.db, s) && PersistedPast(sys.db, s) {
      assert PairConsistent(sys.db, s);
    }
  }

  /** Through every interleaving, refresh and crash, a pending order holds exactly what its intent requested. */
  lemma FrozenWhilePending(sys: Sys, es: seq<Event>, s: Signal)
    requires Initial(sys)
    ensures Frozen(Exec(sys, es).db, s)
  {
    InitialAgrees(sys);
    AgreementRun(sys, es);
  }

  /** In every interleaving a PERSISTED intent's position is OPEN, CLOSE_REQUESTED, CLOSED or REJECTED, never
   waiting. */
  lemma PersistedNeverWaiting(sys: Sys, es: seq<Event>, s: Signal)
    requires Initial(sys)
    ensures PersistedPast(Exec(sys, es).db, s)
  {
    InitialAgrees(sys);
    AgreementRun(sys, es);
  }

  /** A create call that succeeds, as creator or as loser of a race, goes on with the signal's one pair of rows. */
  lemma CreateReturnsThePair(sys: Sys, es: seq<Event>, pid: nat)
    requires Initial(sys)
    requires pid in Exec(sys, es).procs && Exec(sys, es).procs[pid].pc.PreSubmit?
    ensures BothRows(Exec(sys, es).db, Exec(sys, es).procs[pid].sig)
  {
    InitialAgrees(sys);
    AgreementRun(sys, es);
  }

  // ----- PERSISTED means opened: exactly when -----

  /** A recovery iteration's unconditional last mark is written after the position was rejected under it. */
  predicate LateOverRejected(sys: Sys, e: Event, s: Signal) {
    && e.Run? && e.pid in sys.procs && sys.procs[e.pid].sig == s && sys.procs[e.pid].pc.LateWrite?
    && BothRows(sys.db, s) && sys.db.positions[s].status.Rejected?
  }

  lemma BrokenExactlyByLateMark(sys: Sys, e: Event, s: Signal)
    requires AgreementInv(sys) && !Broken(sys.db, s)
    ensures Broken(Step(sys, e).db, s) <==> LateOverRejected(sys, e, s)
  {
    assert Frozen(sys.db, s) && PersistedPast(sys.db, s);
    if e.Run? && e.pid in sys.procs {
      assert Knows(sys.db, sys.procs[e.pid].sig, sys.procs[e.pid].pc);
    }
  }

  /** A recovery iteration that saw RECOVERED finds the position REJECTED at its guarded open, and will mark all the
      same. */
  predicate LateMissed(sys: Sys, e: Event, s: Signal) {
    && e.Run? && e.pid in sys.procs && sys.procs[e.pid].sig == s && sys.procs[e.pid].pc.OpenGuard?
    && sys.procs[e.pid].pc.late && s in sys.db.positions && sys.db.positions[s].status.Rejected?
  }

  predicate NeverLate(sys: Sys, es: seq<Event>, s: Signal)
    decreases |es|
  {
    es == [] || (!LateMissed(sys, es[0], s) && NeverLate(Step(sys, es[0]), es[1..], s))
  }

  /** Without such a miss, whoever is about to mark unconditionally has seen the position settled. */
  predicate Confident(db: Db, s: Signal, pc: Pc) {
    match pc
    case MarkRead(_, after) => after.LateNext? ==> SettledRow(db, s)
    case MarkWrite(_, after) => after.LateNext? ==> SettledRow(db, s)
    case LateRead => SettledRow(db, s)
    case LateWrite => SettledRow(db, s)
    case _ => true
  }

  ghost predicate ConfidentInv(sys: Sys, s: Signal) {
    && AgreementInv(sys) && !Broken(sys.db, s)
    && forall pid | pid in sys.procs && sys.procs[pid].sig == s :: Confident(sys.db, s, sys.procs[pid].pc)
  }

  lemma SettledStays(db: Db, s: Signal, pc: Pc, c: Choice, t: Signal)
    requires SettledRow(db, t)
    ensures SettledRow(NextDb(db, s, pc, c), t)
  {
  }

  lemma BecomesConfident(sys: Sys, pid: nat, p: Proc, c: Choice)
    requires Knows(sys.db, p.sig, p.pc) && Confident(sys.db, p.sig, p.pc) && NextPc(sys, pid, p, c).Some?
    requires p.pc.OpenGuard? && p.pc.late ==> !sys.db.positions[p.sig].status.Rejected?
    ensures Confident(NextDb(sys.db, p.sig, p.pc, c), p.sig, NextPc(sys, pid, p, c).value)
  {
  }

  lemma ConfidentStep(sys: Sys, e: Event, s: Signal)
    requires ConfidentInv(sys, s) && !LateMissed(sys, e, s)
    ensures ConfidentInv(Step(sys, e), s)
  {
    AgreementStep(sys, e);
    BrokenExactlyByLateMark(sys, e, s);
    if e.Run? && e.pid in sys.procs {
      var p, next := sys.procs[e.pid], Step(sys, e);
      assert Knows(sys.db, p.sig, p.pc);
      forall pid | pid in next.procs && next.procs[pid].sig == s ensures Confident(next.db, s, next.procs[pid].pc) {
        assert Confident(sys.db, s, sys.procs[pid].pc);
        if pid == e.pid {
          BecomesConfident(sys, pid, p, e.choice);
        } else if SettledRow(sys.db, s) {
          SettledStays(sys.db, p.sig, p.pc, e.choice, s);
        }
      }
    }
  }

  lemma {:induction false} ConfidentRun(sys: Sys, es: seq<Event>, s: Signal)
    requires ConfidentInv(sys, s) && NeverLate(sys, es, s)
    ensures ConfidentInv(Exec(sys, es), s)
    decreases |es|
  {
    if es != [] {
      ConfidentStep(sys, es[0], s);
      ConfidentRun(Step(sys, es[0]), es[1..], s);
    }
  }

  /** In every run in which no recovery iteration finds the position REJECTED at its guarded open, a PERSISTED
      intent's position is OPEN, CLOSE_REQUESTED or CLOSED. */
  lemma PersistedMeansOpened(sys: Sys, es: seq<Event>, s: Signal)
    requires Initial(sys) && NeverLate(sys, es, s)
    ensures BothRows(Exec(sys, es).db, s) && Exec(sys, es).db.intents[s].state.Persisted?
            ==> Settled(Exec(sys, es).db.positions[s].status)
  {
    InitialAgrees(sys);
    assert PairConsistent(sys.db, s);
    ConfidentRun(sys, es, s);
  }
}
