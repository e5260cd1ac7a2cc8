/**
 Exactly when the two rows of a signal can come to contradict each other: PERSISTED over a position that was never
 opened, and REJECTED over one that is open. Neither can happen once the order is past waiting, once its intent was
 submitted, or over a row without its partner.
 */
module Contradictions {
  import opened Wrappers
  import opened ExecutionModel
  import opened Protocol
  import opened Agreement
  import opened FailClosed
  import opened Overlap
  import opened SweepRaces
  import opened Races
  import Iterations

  // ----- once the intent was submitted, no process that starts later can fail it closed -----

  predicate Fresh(i: Intent) {
    i.state.Created? && !i.submitted
  }

  /** Not on its way to the guarded rejection, nor to a broker query that may lead there. */
  predicate Calm(pc: Pc) {
    match pc
    case FailRead => false
    case FailGuard => false
    case SweepPosition => false
    case PassPosition(seen) => !Fresh(seen)
    case Adopt(caller) => !caller.Sweep? && (caller.Pass? ==> !Fresh(caller.seen))
    case _ => true
  }

  ghost predicate CalmInv(sys: Sys, s: Signal) {
    && BothRows(sys.db, s) && GateClosed(sys.db, s) && !sys.db.positions[s].status.Rejected?
    && forall pid | pid in sys.procs && sys.procs[pid].sig == s ::
         Harmless(sys.db, s, sys.procs[pid].pc) && Calm(sys.procs[pid].pc)
  }

  lemma CalmRowsStay(db: Db, s: Signal, pc: Pc, c: Choice, t: Signal)
    requires BothRows(db, t) && GateClosed(db, t) && !db.positions[t].status.Rejected?
    requires s == t ==> Harmless(db, s, pc) && Calm(pc)
    ensures var next := NextDb(db, s, pc, c);
            BothRows(next, t) && GateClosed(next, t) && !next.positions[t].status.Rejected?
  {
  }

  lemma CalmNext(sys: Sys, pid: nat, p: Proc, c: Choice)
    requires BothRows(sys.db, p.sig) && GateClosed(sys.db, p.sig) && Harmless(sys.db, p.sig, p.pc) && Calm(p.pc)
    requires NextPc(sys, pid, p, c).Some?
    ensures Calm(NextPc(sys, pid, p, c).value)
  {
  }

  lemma CalmStep(sys: Sys, e: Event, s: Signal)
    requires CalmInv(sys, s)
    ensures CalmInv(Step(sys, e), s)
  {
    if e.Run? && e.pid in sys.procs {
      var p, next := sys.procs[e.pid], Step(sys, e);
      CalmRowsStay(sys.db, p.sig, p.pc, e.choice, s);
      forall pid | pid in next.procs && next.procs[pid].sig == s
        ensures Harmless(next.db, s, next.procs[pid].pc) && Calm(next.procs[pid].pc)
      {
        assert Harmless(sys.db, s, sys.procs[pid].pc) && Calm(sys.procs[pid].pc);
        if pid == e.pid {
          HarmlessStep(sys, pid, p, e.choice);
          CalmNext(sys, pid, p, e.choice);
        }
      }
    }
  }

  /** No process ever gets to reject the position, so fail-closed misses nothing either. */
  lemma {:induction false} CalmRun(sys: Sys, es: seq<Event>, s: Signal)
    requires CalmInv(sys, s)
    ensures CalmInv(Exec(sys, es), s) && NeverMissed(sys, es, s)
    decreases |es|
  {
    if es != [] {
      CalmStep(sys, es[0], s);
      CalmRun(Step(sys, es[0]), es[1..], s);
    }
  }

  // ----- once the position is past waiting, fail-closed returns at its read -----

  ghost predicate PastInv(sys: Sys, s: Signal) {
    && Past(sys.db, s)
    && forall pid | pid in sys.procs && sys.procs[pid].sig == s :: !sys.procs[pid].pc.FailGuard?
  }

  lemma PastStep(sys: Sys, e: Event, s: Signal)
    requires PastInv(sys, s)
    ensures PastInv(Step(sys, e), s)
  {
    if e.Run? && e.pid in sys.procs {
      var p, next := sys.procs[e.pid], Step(sys, e);
      forall pid | pid in next.procs && next.procs[pid].sig == s ensures !next.procs[pid].pc.FailGuard? {
        assert pid != e.pid ==> !sys.procs[pid].pc.FailGuard?;
      }
    }
  }

  lemma {:induction false} PastRun(sys: Sys, es: seq<Event>, s: Signal)
    requires PastInv(sys, s)
    ensures PastInv(Exec(sys, es), s) && NeverMissed(sys, es, s)
    decreases |es|
  {
    if es != [] {
      PastStep(sys, es[0], s);
      PastRun(Step(sys, es[0]), es[1..], s);
    }
  }

  lemma {:induction false} SettledRun(sys: Sys, es: seq<Event>, s: Signal)
    requires SettledRow(sys.db, s)
    ensures SettledRow(Exec(sys, es).db, s)
    decreases |es|
  {
    if es != [] {
      if es[0].Run? && es[0].pid in sys.procs {
        var p := sys.procs[es[0].pid];
        SettledStays(sys.db, p.sig, p.pc, es[0].choice, s);
      }
      SettledRun(Step(sys, es[0]), es[1..], s);
    }
  }

  // ----- an unlinked intent, or a rejected position: no recovery iteration asks the broker about it -----

  predicate Unasked(db: Db, s: Signal) {
    BothRows(db, s) && (db.positions[s].status.Rejected? || !db.intents[s].linked)
  }

  predicate Idle(db: Db, s: Signal, pc: Pc) {
    !Iterations.MidPass(pc) && (pc.PassPosition? ==> s in db.positions && db.positions[s].status.Rejected?)
  }

  ghost predicate UnaskedInv(sys: Sys, s: Signal) {
    && AgreementInv(sys) && Unasked(sys.db, s) && !Broken(sys.db, s)
    && forall pid | pid in sys.procs && sys.procs[pid].sig == s ::
         Idle(sys.db, s, sys.procs[pid].pc) && !sys.procs[pid].pc.LegacyWrite?
  }

  lemma UnaskedStays(db: Db, s: Signal, pc: Pc, c: Choice, t: Signal)
    requires Unasked(db, t) && (s == t ==> !pc.LegacyWrite?)
    ensures Unasked(NextDb(db, s, pc, c), t)
    ensures db.positions[t].status.Rejected? ==> NextDb(db, s, pc, c).positions[t].status.Rejected?
  {
  }

  lemma IdleNext(sys: Sys, pid: nat, p: Proc, c: Choice)
    requires Unasked(sys.db, p.sig) && Idle(sys.db, p.sig, p.pc) && NextPc(sys, pid, p, c).Some?
    ensures Idle(sys.db, p.sig, NextPc(sys, pid, p, c).value) && !NextPc(sys, pid, p, c).value.LegacyWrite?
  {
  }

  lemma UnaskedStep(sys: Sys, e: Event, s: Signal)
    requires UnaskedInv(sys, s)
    ensures UnaskedInv(Step(sys, e), s)
  {
    AgreementStep(sys, e);
    BrokenExactlyByLateMark(sys, e, s);
    if e.Run? && e.pid in sys.procs {
      var p, next := sys.procs[e.pid], Step(sys, e);
      UnaskedStays(sys.db, p.sig, p.pc, e.choice, s);
      forall pid | pid in next.procs && next.procs[pid].sig == s
        ensures Idle(next.db, s, next.procs[pid].pc) && !next.procs[pid].pc.LegacyWrite?
      {
        assert Idle(sys.db, s, sys.procs[pid].pc);
        if pid == e.pid {
          IdleNext(sys, pid, p, e.choice);
        }
      }
    }
  }

  lemma {:induction false} UnaskedRun(sys: Sys, es: seq<Event>, s: Signal)
    requires UnaskedInv(sys, s)
    ensures UnaskedInv(Exec(sys, es), s)
    decreases |es|
  {
    if es != [] {
      UnaskedStep(sys, es[0], s);
      UnaskedRun(Step(sys, es[0]), es[1..], s);
    }
  }

  // ----- PERSISTED over a position that was never opened -----

  lemma CalmIsNotBroken(sys: Sys, es: seq<Event>, s: Signal)
    requires Initial(sys) && BothRows(sys.db, s) && GateClosed(sys.db, s) && !sys.db.positions[s].status.Rejected?
    ensures !Broken(Exec(sys, es).db, s)
  {
    CalmRun(sys, es, s);
    PersistedNeverWaiting(sys, es, s);
  }

  lemma UnaskedIsNotBroken(sys: Sys, es: seq<Event>, s: Signal)
    requires Initial(sys) && Unasked(sys.db, s)
    ensures !Broken(Exec(sys, es).db, s)
  {
    InitialAgrees(sys);
    assert PairConsistent(sys.db, s);
    UnaskedRun(sys, es, s);
  }

  /** The order waits to be opened by a broker that has no reason to fill it. */
  lemma UnopenedRun(sys: Sys, es: seq<Event>, s: Signal)
    requires Initial(sys) && BothRows(sys.db, s) && !GateClosed(sys.db, s) && sys.db.positions[s].status.OpenRequested?
    ensures NeverOpened(Exec(sys, es).db, s)
  {
    assert FillsKnown(sys, s);
    NeverOpenedRun(sys, es, s);
  }

  lemma UncontendedIsNotBroken(sys: Sys, es: seq<Event>, s: Signal)
    requires Initial(sys) && !Contended(sys.db, s)
    ensures !Broken(Exec(sys, es).db, s)
  {
    if Lone(sys.db, s) {
      LoneRun(sys, es, s, 0, Tally(sys.fills, s));
    } else if SettledRow(sys.db, s) {
      SettledRun(sys, es, s);
    } else if Unasked(sys.db, s) {
      UnaskedIsNotBroken(sys, es, s);
    } else if GateClosed(sys.db, s) {
      CalmIsNotBroken(sys, es, s);
    } else {
      UnopenedRun(sys, es, s);
    }
  }

  lemma LateMarkHappens(sys: Sys, s: Signal) returns (es: seq<Event>)
    requires Initial(sys) && Contended(sys.db, s)
    ensures Broken(Exec(sys, es).db, s)
  {
    assert FillsKnown(sys, s);
    es := [];
    assert Exec(sys, es) == sys;
    if s !in sys.db.intents {
      es := CreatesAndCrashes(sys, s);
    }
    es := LateMarkOverRejectedHappens(sys, es, s);
  }

  predicate EndsBroken(sys: Sys, es: seq<Event>, s: Signal) {
    Broken(Exec(sys, es).db, s)
  }

  /** Some run puts PERSISTED over a position that was never opened exactly when the signal has no rows yet or its
      linked pair is still waiting and unsubmitted. */
  lemma LateMarkExactly(sys: Sys, s: Signal)
    requires Initial(sys)
    ensures (exists es :: EndsBroken(sys, es, s)) <==> Contended(sys.db, s)
  {
    if Contended(sys.db, s) {
      var es := LateMarkHappens(sys, s);
      assert EndsBroken(sys, es, s);
    } else {
      forall es ensures !EndsBroken(sys, es, s) {
        UncontendedIsNotBroken(sys, es, s);
      }
    }
  }

  // ----- REJECTED over an open position -----

  /** A second attempt passes the gate, fails its checks and is about to reject a position it read as pending. */
  lemma AttemptDecides(sys: Sys, es: seq<Event>, pid: nat, s: Signal) returns (longer: seq<Event>)
    requires AtPc(Exec(sys, es), pid, s, true, ResumeCheck) && Resumable(Exec(sys, es).db, s)
    ensures var a, b := Exec(sys, es), Exec(sys, longer);
            Stands(b, pid, s, true, FailGuard, a.db) && OnlyMoved(a, b, pid)
  {
    var refused := Move(sys, es, pid, NO, FailRead);
    longer := Move(sys, refused, pid, YES, FailGuard);
  }

  /** Two attempts pass the gate, and the second is about to fail the pair closed. */
  lemma AttemptsCross(sys: Sys, from: seq<Event>, s: Signal) returns (es: seq<Event>)
    requires Resumable(Exec(sys, from).db, s) && Exec(sys, from).procs == map[] && Tally(Exec(sys, from).fills, s) == 0
    ensures var b := Exec(sys, es);
            && AtPc(b, 0, s, true, SubmitRead(0)) && AtPc(b, 1, s, true, FailGuard)
            && Resumable(b.db, s) && Tally(b.fills, s) == 0
  {
    es := PassesGate(sys, from, 0, s);
    es := PassesGate(sys, es, 1, s);
    es := ReachesSubmit(sys, es, 0, s);
    es := AttemptDecides(sys, es, 1, s);
  }

  /** The first opens the position under the second, which rejects the intent all the same. */
  lemma AttemptRejectsAnOpenedIntent(sys: Sys, from: seq<Event>, s: Signal) returns (es: seq<Event>)
    requires Resumable(Exec(sys, from).db, s) && Exec(sys, from).procs == map[] && Tally(Exec(sys, from).fills, s) == 0
    ensures RejectedOverOpen(Exec(sys, es).db, s)
  {
    es := AttemptsCross(sys, from, s);
    es := AttemptOpens(sys, es, 0, s);
    es := StillRejects(sys, es, 1, s, true);
  }

  lemma RejectionOverOpenHappens(sys: Sys, s: Signal) returns (es: seq<Event>)
    requires Initial(sys) && Sendable(sys.db, s)
    ensures RejectedOverOpen(Exec(sys, es).db, s)
  {
    assert FillsKnown(sys, s);
    es := [];
    assert Exec(sys, es) == sys;
    if s !in sys.db.intents {
      es := CreatesAndCrashes(sys, s);
    }
    es := AttemptRejectsAnOpenedIntent(sys, es, s);
  }

  lemma UnsendableStaysConsistent(sys: Sys, es: seq<Event>, s: Signal)
    requires Initial(sys) && Consistent(sys.db, s) && !Sendable(sys.db, s)
    ensures !RejectedOverOpen(Exec(sys, es).db, s)
  {
    if Lone(sys.db, s) {
      LoneRun(sys, es, s, 0, Tally(sys.fills, s));
    } else if Past(sys.db, s) {
      PastRun(sys, es, s);
      RejectedMeansGone(sys, es, s);
    } else if GateClosed(sys.db, s) {
      CalmRun(sys, es, s);
      RejectedMeansGone(sys, es, s);
    } else {
      UnopenedRun(sys, es, s);
    }
  }

  predicate EndsRejectedOverOpen(sys: Sys, es: seq<Event>, s: Signal) {
    RejectedOverOpen(Exec(sys, es).db, s)
  }

  /** From rows that agree, some run rejects an intent over an OPEN position exactly when the signal has no rows yet or
      its pair is still resumable. */
  lemma RejectedOverOpenExactly(sys: Sys, s: Signal)
    requires Initial(sys) && Consistent(sys.db, s)
    ensures (exists es :: EndsRejectedOverOpen(sys, es, s)) <==> Sendable(sys.db, s)
  {
    if Sendable(sys.db, s) {
      var es := RejectionOverOpenHappens(sys, s);
      assert EndsRejectedOverOpen(sys, es, s);
    } else {
      forall es ensures !EndsRejectedOverOpen(sys, es, s) {
        UnsendableStaysConsistent(sys, es, s);
      }
    }
  }
}
