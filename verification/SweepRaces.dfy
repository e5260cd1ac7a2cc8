/**
 The sweep promises never to expire a submitted intent. It selects only CREATED, unsubmitted ones, but rejects them
 by a mark that re-reads the state alone: exactly when can that mark land on an intent that was submitted meanwhile?
 */
module SweepRaces {
  import opened Wrappers
  import opened ExecutionModel
  import opened Protocol
  import opened Agreement
  import opened Overlap
  import opened Races

  /** A sweep iteration writes REJECTED over an intent that is no longer CREATED and unsubmitted. */
  predicate ExpiresLate(sys: Sys, e: Event, s: Signal) {
    && e.Run? && e.pid in sys.procs && sys.procs[e.pid].sig == s && sys.procs[e.pid].sweep
    && GateClosed(sys.db, s) && !sys.db.intents[s].state.IntentRejected?
    && s in Step(sys, e).db.intents && Step(sys, e).db.intents[s].state.IntentRejected?
  }

  predicate Reachable(sys: Sys, es: seq<Event>, e: Event, s: Signal) {
    ExpiresLate(Exec(sys, es), e, s)
  }

  /** Marks never recreate an intent. */
  predicate NoRecreation(pc: Pc) {
    (pc.MarkRead? || pc.MarkWrite? || pc.ForceWrite?) ==> !pc.to.Created?
  }

  lemma NoRecreationStep(sys: Sys, pid: nat, p: Proc, c: Choice)
    requires NoRecreation(p.pc) && NextPc(sys, pid, p, c).Some?
    ensures NoRecreation(NextPc(sys, pid, p, c).value)
  {
  }

  // ----- signals no sweep iteration can get hold of -----

  /** Either the sweep's query skips the intent, or its iteration finds no waiting position. */
  predicate Unsweepable(db: Db, s: Signal) {
    Past(db, s) || GateClosed(db, s) || (s in db.intents && !db.intents[s].linked) || Lone(db, s)
  }

  predicate Off(db: Db, s: Signal, pc: Pc) {
    pc.SweepSnapshot? || pc.SweepSync? || (pc.SweepPosition? && (s in db.positions ==> Past(db, s)))
  }

  ghost predicate OffInv(sys: Sys, s: Signal) {
    && Unsweepable(sys.db, s)
    && forall pid | pid in sys.procs && sys.procs[pid].sig == s ::
         NoRecreation(sys.procs[pid].pc) && (sys.procs[pid].sweep ==> Off(sys.db, s, sys.procs[pid].pc))
  }

  lemma UnsweepableStays(db: Db, s: Signal, pc: Pc, c: Choice, t: Signal)
    requires Unsweepable(db, t) && (s == t ==> NoRecreation(pc))
    ensures Unsweepable(NextDb(db, s, pc, c), t)
  {
  }

  lemma OffStays(db: Db, s: Signal, pc: Pc, c: Choice, t: Signal, known: Pc)
    requires Unsweepable(db, t) && Off(db, t, known)
    requires t !in db.positions ==> t in db.intents
    ensures Off(NextDb(db, s, pc, c), t, known)
  {
  }

  lemma OffStep(sys: Sys, pid: nat, p: Proc, c: Choice)
    requires Unsweepable(sys.db, p.sig) && Off(sys.db, p.sig, p.pc) && NextPc(sys, pid, p, c).Some?
    ensures Off(NextDb(sys.db, p.sig, p.pc, c), p.sig, NextPc(sys, pid, p, c).value)
  {
  }

  lemma OffInvStep(sys: Sys, e: Event, s: Signal)
    requires OffInv(sys, s)
    ensures OffInv(Step(sys, e), s)
  {
    var next := Step(sys, e);
    if e.Run? && e.pid in sys.procs {
      var p := sys.procs[e.pid];
      UnsweepableStays(sys.db, p.sig, p.pc, e.choice, s);
      forall pid | pid in next.procs && next.procs[pid].sig == s
        ensures NoRecreation(next.procs[pid].pc)
        ensures next.procs[pid].sweep ==> Off(next.db, s, next.procs[pid].pc)
      {
        assert NoRecreation(sys.procs[pid].pc);
        if pid == e.pid {
          NoRecreationStep(sys, pid, p, e.choice);
          if p.sweep {
            OffStep(sys, pid, p, e.choice);
          }
        } else if sys.procs[pid].sweep {
          OffStays(sys.db, p.sig, p.pc, e.choice, s, sys.procs[pid].pc);
        }
      }
    }
  }

  lemma {:induction false} OffRun(sys: Sys, es: seq<Event>, s: Signal)
    requires OffInv(sys, s)
    ensures OffInv(Exec(sys, es), s)
    decreases |es|
  {
    if es != [] {
      OffInvStep(sys, es[0], s);
      OffRun(Step(sys, es[0]), es[1..], s);
    }
  }

  // ----- a CREATED intent over an OPEN_REQUESTED position: nobody can submit it -----

  predicate NeverOpened(db: Db, s: Signal) {
    && BothRows(db, s)
    && (db.positions[s].status.OpenRequested? || Terminal(db.positions[s].status))
    && (GateClosed(db, s) ==> db.intents[s].state.IntentRejected?)
  }

  /** Without a fill no process on the signal can be about to open or to mark anything but a rejection. */
  predicate Unfilled(pc: Pc) {
    match pc
    case MarkRead(to, after) => to.IntentRejected? && after.Stop?
    case MarkWrite(to, after) => to.IntentRejected? && after.Stop?
    case ForceWrite(to) => to.IntentRejected?
    case OpenGuard(_, _) => false
    case ConfirmCheck(_) => false
    case LateRead => false
    case LateWrite => false
    case LegacyWrite(_) => false
    case _ => true
  }

  ghost predicate NeverOpenedInv(sys: Sys, s: Signal) {
    && ShutInv(sys, s, 0, 0) && NeverOpened(sys.db, s)
    && forall pid | pid in sys.procs && sys.procs[pid].sig == s :: Unfilled(sys.procs[pid].pc)
  }

  lemma NeverOpenedStays(db: Db, s: Signal, pc: Pc, c: Choice, t: Signal)
    requires NeverOpened(db, t) && (s == t ==> Unfilled(pc) && Harmless(db, s, pc))
    ensures NeverOpened(NextDb(db, s, pc, c), t)
  {
  }

  lemma UnfilledStep(sys: Sys, pid: nat, p: Proc, c: Choice)
    requires NeverOpened(sys.db, p.sig) && Tally(sys.fills, p.sig) == 0 && Unfilled(p.pc)
             && Harmless(sys.db, p.sig, p.pc)
    requires NextPc(sys, pid, p, c).Some?
    ensures Unfilled(NextPc(sys, pid, p, c).value)
  {
  }

  lemma NeverOpenedStep(sys: Sys, e: Event, s: Signal)
    requires NeverOpenedInv(sys, s)
    ensures NeverOpenedInv(Step(sys, e), s)
  {
    var next := Step(sys, e);
    ShutStep(sys, e, s, 0, 0);
    if e.Run? && e.pid in sys.procs {
      var p := sys.procs[e.pid];
      NeverOpenedStays(sys.db, p.sig, p.pc, e.choice, s);
      forall pid | pid in next.procs && next.procs[pid].sig == s ensures Unfilled(next.procs[pid].pc) {
        assert Unfilled(sys.procs[pid].pc);
        if pid == e.pid {
          UnfilledStep(sys, pid, p, e.choice);
        }
      }
    }
  }

  lemma {:induction false} NeverOpenedRun(sys: Sys, es: seq<Event>, s: Signal)
    requires NeverOpenedInv(sys, s)
    ensures NeverOpenedInv(Exec(sys, es), s)
    decreases |es|
  {
    if es != [] {
      NeverOpenedStep(sys, es[0], s);
      NeverOpenedRun(Step(sys, es[0]), es[1..], s);
    }
  }

  // ----- a waiting pair: the sweep and an attempt can cross -----

  /** The attempt marks the intent submitted while the sweep is about to reject. */
  lemma Crosses(sys: Sys, from: seq<Event>, s: Signal) returns (es: seq<Event>)
    requires Resumable(Exec(sys, from).db, s) && Exec(sys, from).db.intents[s].linked
    requires Exec(sys, from).procs == map[] && Tally(Exec(sys, from).fills, s) == 0
    ensures var b := Exec(sys, es);
            && AtPc(b, 1, s, false, FailGuard) && b.procs[1].sweep
            && BothRows(b.db, s) && b.db.intents[s].state.Submitted?
  {
    es := BothUnderWay(sys, from, s);
    es := AttemptMarks(sys, es, 0, s);
  }

  lemma AboutToExpireLate(sys: Sys, from: seq<Event>, s: Signal) returns (es: seq<Event>)
    requires Resumable(Exec(sys, from).db, s) && Exec(sys, from).db.intents[s].linked
    requires Exec(sys, from).procs == map[] && Tally(Exec(sys, from).fills, s) == 0
    ensures var b := Exec(sys, es);
            && AtPc(b, 1, s, false, MarkWrite(IntentRejected, Stop)) && b.procs[1].sweep
            && s in b.db.intents && b.db.intents[s].state.Submitted?
  {
    es := Crosses(sys, from, s);
    es := FailGoesOn(sys, es, 1, s, false);
    es := MarkReadsOn(sys, es, 1, s, false);
  }

  lemma LateMark(b: Sys, s: Signal)
    requires AtPc(b, 1, s, false, MarkWrite(IntentRejected, Stop)) && b.procs[1].sweep
    requires s in b.db.intents && b.db.intents[s].state.Submitted?
    ensures ExpiresLate(b, Run(1, YES), s)
  {
  }

  lemma CrossingExpiresLate(sys: Sys, from: seq<Event>, s: Signal) returns (es: seq<Event>, e: Event)
    requires Resumable(Exec(sys, from).db, s) && Exec(sys, from).db.intents[s].linked
    requires Exec(sys, from).procs == map[] && Tally(Exec(sys, from).fills, s) == 0
    ensures Reachable(sys, es, e, s)
  {
    es := AboutToExpireLate(sys, from, s);
    e := Run(1, YES);
    LateMark(Exec(sys, es), s);
  }

  // ----- exactly when -----

  /** The sweep can reach the signal while an attempt can still submit it. */
  predicate Contended(db: Db, s: Signal) {
    (Resumable(db, s) && db.intents[s].linked) || (s !in db.positions && s !in db.intents)
  }

  lemma LateNeedsContention(sys: Sys, es: seq<Event>, e: Event, s: Signal)
    requires Initial(sys) && !Contended(sys.db, s)
    ensures !Reachable(sys, es, e, s)
  {
    var b := Exec(sys, es);
    if Unsweepable(sys.db, s) {
      OffRun(sys, es, s);
      if e.Run? && e.pid in b.procs && b.procs[e.pid].sig == s && b.procs[e.pid].sweep {
        assert Off(b.db, s, b.procs[e.pid].pc);
      }
    } else {
      assert FillsKnown(sys, s);
      NeverOpenedRun(sys, es, s);
    }
  }

  /** A sweep can reject an intent that was submitted after it was selected, exactly when the signal has no rows yet
      or its linked pair is still waiting and unsubmitted. */
  lemma ExpiresLateExactly(sys: Sys, s: Signal)
    requires Initial(sys)
    ensures (exists es, e :: Reachable(sys, es, e, s)) <==> Contended(sys.db, s)
  {
    assert FillsKnown(sys, s);
    if !Contended(sys.db, s) {
      forall es, e ensures !Reachable(sys, es, e, s) {
        LateNeedsContention(sys, es, e, s);
      }
    } else if s in sys.db.intents {
      assert Exec(sys, []) == sys;
      var es, e := CrossingExpiresLate(sys, [], s);
    } else {
      var from := CreatesAndCrashes(sys, s);
      var es, e := CrossingExpiresLate(sys, from, s);
    }
  }
}
