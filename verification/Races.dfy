/**
 Interleavings in which a helper's stale read defeats what its comment promises. Each lemma builds the
 run, for every table state the run can start from.
 */
module Races {
  import opened Wrappers
  import opened ExecutionModel
  import opened Protocol
  import opened Agreement
  import opened Overlap

  const ORDER := Params(1.0, 1.0, Some(1.0))

  /** Like YES, but the broker accepts the order. */
  const ACCEPTED := YES.(outcome := Accepted(FILL))

  /** The broker query finds nothing, or the caller's check fails. */
  const NO := YES.(ok := false, safe := false)

  /** Process pid works on s at pc. */
  predicate AtPc(sys: Sys, pid: nat, s: Signal, attempt: bool, pc: Pc) {
    pid in sys.procs && sys.procs[pid].sig == s && sys.procs[pid].attempt == attempt && sys.procs[pid].pc == pc
  }

  /** Process pid works on s at pc, in the tables db. */
  predicate Stands(sys: Sys, pid: nat, s: Signal, attempt: bool, pc: Pc, db: Db) {
    AtPc(sys, pid, s, attempt, pc) && sys.db == db
  }

  /** Every process but pid is as it was. */
  ghost predicate OthersKept(a: Sys, b: Sys, pid: nat) {
    forall other | other != pid ::
      (other in a.procs <==> other in b.procs) && (other in a.procs ==> b.procs[other] == a.procs[other])
  }

  /** Only process pid and the tables differ. */
  ghost predicate OnlyMoved(a: Sys, b: Sys, pid: nat) {
    b.locks == a.locks && b.sends == a.sends && b.fills == a.fills && OthersKept(a, b, pid)
  }

  lemma Composed(a: Sys, b: Sys, c: Sys, pid: nat)
    requires OnlyMoved(a, b, pid) && OnlyMoved(b, c, pid)
    ensures OnlyMoved(a, c, pid)
  {
  }

  /** One step of pid away from the lock and the send. */
  lemma Move(sys: Sys, es: seq<Event>, pid: nat, c: Choice, next: Pc) returns (longer: seq<Event>)
    requires var a := Exec(sys, es);
             && pid in a.procs && NextPc(a, pid, a.procs[pid], c) == Some(next)
             && !a.procs[pid].pc.Lock? && !a.procs[pid].pc.ReserveRead? && !a.procs[pid].pc.ReserveInsert?
             && !a.procs[pid].pc.Order?
    ensures var a, b := Exec(sys, es), Exec(sys, longer);
            var p := a.procs[pid];
            && Stands(b, pid, p.sig, p.attempt, next, NextDb(a.db, p.sig, p.pc, c)) && OnlyMoved(a, b, pid)
            && b.procs[pid].sweep == p.sweep
    ensures longer == es + [Run(pid, c)]
  {
    longer := Then(sys, es, Run(pid, c));
  }

  /** The last step of pid's activity, away from the create transaction. */
  lemma End(sys: Sys, es: seq<Event>, pid: nat, c: Choice) returns (longer: seq<Event>)
    requires var a := Exec(sys, es);
             && pid in a.procs && NextPc(a, pid, a.procs[pid], c).None?
             && !a.procs[pid].pc.Lock? && !a.procs[pid].pc.ReserveRead? && !a.procs[pid].pc.ReserveInsert?
             && !a.procs[pid].pc.Order?
    ensures longer == es + [Run(pid, c)]
    ensures var a, b := Exec(sys, es), Exec(sys, longer);
            var p := a.procs[pid];
            b == a.(db := NextDb(a.db, p.sig, p.pc, c), procs := a.procs - {pid})
  {
    longer := Then(sys, es, Run(pid, c));
  }

  lemma Begin(sys: Sys, es: seq<Event>, pid: nat, s: Signal, job: Job) returns (longer: seq<Event>)
    requires pid !in Exec(sys, es).procs
    ensures var a, b := Exec(sys, es), Exec(sys, longer);
            && Stands(b, pid, s, job.Attempt?, Entry(job), a.db) && OnlyMoved(a, b, pid)
            && b.procs[pid].sweep == job.Expiry?
    ensures longer == es + [Spawn(pid, s, job)]
  {
    longer := Then(sys, es, Spawn(pid, s, job));
  }

  // ----- fail-closed after the position was opened -----

  lemma SweepQueries(sys: Sys, es: seq<Event>, pid: nat, s: Signal, late: Choice) returns (longer: seq<Event>)
    requires var a := Exec(sys, es);
             && Resumable(a.db, s) && a.db.intents[s].linked && pid !in a.procs
             && Expired(a.db.intents[s].createdAt, late.now) && late.ok
    ensures var a, b := Exec(sys, es), Exec(sys, longer);
            Stands(b, pid, s, false, Adopt(Sweep), a.db) && OnlyMoved(a, b, pid) && b.procs[pid].sweep
  {
    var first := Begin(sys, es, pid, s, Expiry);
    var second := Move(sys, first, pid, late, SweepPosition);
    longer := Move(sys, second, pid, late, Adopt(Sweep));
  }

  /** A sweep decides to fail an expired intent closed, from a position it read as pending. */
  lemma SweepDecides(sys: Sys, es: seq<Event>, pid: nat, s: Signal) returns (longer: seq<Event>)
    requires var a := Exec(sys, es);
             Resumable(a.db, s) && a.db.intents[s].linked && pid !in a.procs && Tally(a.fills, s) == 0
    ensures var a, b := Exec(sys, es), Exec(sys, longer);
            Stands(b, pid, s, false, FailGuard, a.db) && OnlyMoved(a, b, pid) && b.procs[pid].sweep
  {
    var late := YES.(now := Exec(sys, es).db.intents[s].createdAt + RESUME_TTL_MS + 1);
    var asked := SweepQueries(sys, es, pid, s, late);
    var refused := Move(sys, asked, pid, NO, FailRead);
    longer := Move(sys, refused, pid, late, FailGuard);
    Composed(Exec(sys, es), Exec(sys, asked), Exec(sys, refused), pid);
    Composed(Exec(sys, es), Exec(sys, refused), Exec(sys, longer), pid);
  }

  /** The order goes out and gets the given reply. */
  lemma OrderAnswered(sys: Sys, es: seq<Event>, pid: nat, s: Signal, c: Choice) returns (longer: seq<Event>)
    requires AtPc(Exec(sys, es), pid, s, true, Order(0))
    ensures longer == es + [Run(pid, c)]
    ensures var a, b := Exec(sys, es), Exec(sys, longer);
            && Stands(b, pid, s, true, Reply(0, c.outcome), a.db)
            && (c.filled && c.outcome != Refused(true) ==> Tally(b.fills, s) > 0)
            && OnlyMoved(a, b.(sends := a.sends, fills := a.fills), pid)
  {
    longer := Then(sys, es, Run(pid, c));
  }

  /** An attempt at its submit marks the intent, looks the signal up, sends, and gets the given reply. */
  lemma AttemptSends(sys: Sys, es: seq<Event>, pid: nat, s: Signal, c: Choice) returns (longer: seq<Event>)
    requires var a := Exec(sys, es);
             && Resumable(a.db, s) && Tally(a.fills, s) == 0
             && AtPc(a, pid, s, true, SubmitRead(0))
    ensures var a, b := Exec(sys, es), Exec(sys, longer);
            && Stands(b, pid, s, true, Reply(0, c.outcome), SetState(a.db, s, Submitted))
            && (c.filled && c.outcome != Refused(true) ==> Tally(b.fills, s) > 0)
            && OnlyMoved(a, b.(sends := a.sends, fills := a.fills), pid)
  {
    var second := AttemptMarks(sys, es, pid, s);
    var third := Move(sys, second, pid, YES, Order(0));
    longer := OrderAnswered(sys, third, pid, s, c);
  }

  lemma FillLands(sys: Sys, es: seq<Event>, pid: nat, s: Signal) returns (longer: seq<Event>)
    requires var a := Exec(sys, es);
             && AtPc(a, pid, s, true, OpenGuard(FILL, false))
             && s in a.db.positions && a.db.positions[s].status.Pending?
    ensures var a, b := Exec(sys, es), Exec(sys, longer);
            b.db == OpenPosition(a.db, s, FILL) && OthersKept(a, b, pid)
  {
    longer := Move(sys, es, pid, ACCEPTED, ConfirmCheck(false));
  }

  /** An accepted order opens the position. */
  lemma AttemptOpens(sys: Sys, es: seq<Event>, pid: nat, s: Signal) returns (longer: seq<Event>)
    requires var a := Exec(sys, es);
             && Resumable(a.db, s) && Tally(a.fills, s) == 0
             && AtPc(a, pid, s, true, SubmitRead(0))
    ensures var a, b := Exec(sys, es), Exec(sys, longer);
            b.db == OpenPosition(SetState(a.db, s, Submitted), s, FILL) && OthersKept(a, b, pid)
  {
    var sent := AttemptSends(sys, es, pid, s, ACCEPTED);
    var replied := Move(sys, sent, pid, ACCEPTED, OpenGuard(FILL, false));
    longer := FillLands(sys, replied, pid, s);
  }

  /** The mark re-reads only the intent's state, and a submitted intent may be rejected. */
  lemma MarkReadsOn(sys: Sys, es: seq<Event>, pid: nat, s: Signal, attempt: bool) returns (longer: seq<Event>)
    requires var a := Exec(sys, es);
             && AtPc(a, pid, s, attempt, MarkRead(IntentRejected, Stop))
             && s in a.db.intents && a.db.intents[s].state.Submitted?
    ensures var a, b := Exec(sys, es), Exec(sys, longer);
            && Stands(b, pid, s, attempt, MarkWrite(IntentRejected, Stop), a.db)
            && b.procs[pid].sweep == a.procs[pid].sweep
  {
    longer := Move(sys, es, pid, YES, MarkWrite(IntentRejected, Stop));
  }

  lemma MarkLands(sys: Sys, es: seq<Event>, pid: nat, s: Signal, attempt: bool) returns (longer: seq<Event>)
    requires AtPc(Exec(sys, es), pid, s, attempt, MarkWrite(IntentRejected, Stop)) && s in Exec(sys, es).db.intents
    ensures Exec(sys, longer).db == SetState(Exec(sys, es).db, s, IntentRejected)
  {
    longer := End(sys, es, pid, YES);
  }

  /** Whether or not the guarded update matched, fail-closed goes on to its mark. */
  lemma FailGoesOn(sys: Sys, es: seq<Event>, pid: nat, s: Signal, attempt: bool) returns (longer: seq<Event>)
    requires AtPc(Exec(sys, es), pid, s, attempt, FailGuard)
    ensures var a, b := Exec(sys, es), Exec(sys, longer);
            && Stands(b, pid, s, attempt, MarkRead(IntentRejected, Stop), NextDb(a.db, s, FailGuard, YES))
            && OnlyMoved(a, b, pid) && b.procs[pid].sweep == a.procs[pid].sweep
  {
    longer := Move(sys, es, pid, YES, MarkRead(IntentRejected, Stop));
  }

  /** An attempt marks its intent submitted. */
  lemma AttemptMarks(sys: Sys, es: seq<Event>, pid: nat, s: Signal) returns (longer: seq<Event>)
    requires var a := Exec(sys, es);
             AtPc(a, pid, s, true, SubmitRead(0)) && Resumable(a.db, s)
    ensures var a, b := Exec(sys, es), Exec(sys, longer);
            Stands(b, pid, s, true, Send(0), SetState(a.db, s, Submitted)) && OnlyMoved(a, b, pid)
  {
    var first := Move(sys, es, pid, YES, SubmitWrite(0));
    longer := Move(sys, first, pid, YES, Send(0));
  }

  /** The guarded write hits no row, and the mark still rejects the submitted intent. */
  lemma StillRejects(sys: Sys, es: seq<Event>, pid: nat, s: Signal, attempt: bool) returns (longer: seq<Event>)
    requires var a := Exec(sys, es);
             && AtPc(a, pid, s, attempt, FailGuard)
             && s in a.db.positions && a.db.positions[s].status.Open?
             && s in a.db.intents && a.db.intents[s].state.Submitted?
    ensures Exec(sys, longer).db == SetState(Exec(sys, es).db, s, IntentRejected)
  {
    longer := FailGoesOn(sys, es, pid, s, attempt);
    longer := MarkReadsOn(sys, longer, pid, s, attempt);
    longer := MarkLands(sys, longer, pid, s, attempt);
  }

  /**
   Fail-closed promises to do nothing once the position is open. With a single attempt and a sweep on one
   signal, from any expired resumable pair, it can leave the intent REJECTED over an OPEN position.
   */
  lemma FailClosedRejectsAnOpenedIntent(sys: Sys, s: Signal) returns (es: seq<Event>)
    requires Initial(sys) && Resumable(sys.db, s) && sys.db.intents[s].linked
    ensures var b := Exec(sys, es).db;
            && s in b.positions && b.positions[s].status.Open?
            && s in b.intents && b.intents[s].state.IntentRejected?
  {
    assert FillsKnown(sys, s);
    assert Exec(sys, []) == sys;
    es := BothUnderWay(sys, [], s);
    es := AttemptOpens(sys, es, 0, s);
    es := StillRejects(sys, es, 1, s, false);
  }

  // ----- the recovery iteration's last mark -----

  /** A recovery iteration up to its broker query. */
  lemma RecoveryAsks(sys: Sys, es: seq<Event>, pid: nat, s: Signal, seen: Intent) returns (longer: seq<Event>)
    requires var a := Exec(sys, es);
             && pid !in a.procs && BothRows(a.db, s) && seen == a.db.intents[s] && seen.linked
             && a.db.positions[s].status.Pending? && Unresolved(seen.state)
    ensures var a, b := Exec(sys, es), Exec(sys, longer);
            Stands(b, pid, s, false, Adopt(Pass(seen)), a.db) && OnlyMoved(a, b, pid)
  {
    var first := Begin(sys, es, pid, s, Recovery);
    var second := Move(sys, first, pid, YES, PassPosition(seen));
    longer := Move(sys, second, pid, YES, Adopt(Pass(seen)));
    Composed(Exec(sys, es), Exec(sys, first), Exec(sys, second), pid);
  }

  lemma RecoveryMatches(sys: Sys, es: seq<Event>, pid: nat, s: Signal) returns (longer: seq<Event>)
    requires var a := Exec(sys, es);
             && pid !in a.procs && Tally(a.fills, s) > 0 && BothRows(a.db, s)
             && a.db.positions[s].status.Pending? && a.db.intents[s].state.Submitted? && a.db.intents[s].linked
    ensures var a, b := Exec(sys, es), Exec(sys, longer);
            Stands(b, pid, s, false, MarkRead(Recovered, OpenNext(FILL, false)), a.db) && OnlyMoved(a, b, pid)
  {
    var seen := Exec(sys, es).db.intents[s];
    var asked := RecoveryAsks(sys, es, pid, s, seen);
    longer := Move(sys, asked, pid, YES, MarkRead(Recovered, OpenNext(FILL, false)));
    Composed(Exec(sys, es), Exec(sys, asked), Exec(sys, longer), pid);
  }

  /** One recovery iteration marks the intent RECOVERED and crashes before it opens the position. */
  lemma RecoveryCrashes(sys: Sys, es: seq<Event>, pid: nat, s: Signal) returns (longer: seq<Event>)
    requires var a := Exec(sys, es);
             && pid !in a.procs && Tally(a.fills, s) > 0 && BothRows(a.db, s)
             && a.db.positions[s].status.Pending? && a.db.intents[s].state.Submitted? && a.db.intents[s].linked
    ensures var a, b := Exec(sys, es), Exec(sys, longer);
            b.db == SetState(a.db, s, Recovered) && b.fills == a.fills && OthersKept(a, b, pid) && pid !in b.procs
  {
    var matched := RecoveryMatches(sys, es, pid, s);
    var marked := RecoveryMarks(sys, matched, pid, s);
    longer := Then(sys, marked, Crash(pid));
  }

  lemma RecoveryMarks(sys: Sys, es: seq<Event>, pid: nat, s: Signal) returns (longer: seq<Event>)
    requires var a := Exec(sys, es);
             && AtPc(a, pid, s, false, MarkRead(Recovered, OpenNext(FILL, false)))
             && s in a.db.intents && a.db.intents[s].state.Submitted?
    ensures var a, b := Exec(sys, es), Exec(sys, longer);
            Stands(b, pid, s, false, OpenGuard(FILL, false), SetState(a.db, s, Recovered)) && OnlyMoved(a, b, pid)
  {
    var first := Move(sys, es, pid, YES, MarkWrite(Recovered, OpenNext(FILL, false)));
    longer := Move(sys, first, pid, YES, OpenGuard(FILL, false));
  }

  /** The next iteration saw RECOVERED, so it will mark PERSISTED whatever the open write finds. */
  lemma RecoveryReopens(sys: Sys, es: seq<Event>, pid: nat, s: Signal) returns (longer: seq<Event>)
    requires var a := Exec(sys, es);
             && pid !in a.procs && Tally(a.fills, s) > 0 && BothRows(a.db, s)
             && a.db.positions[s].status.Pending? && a.db.intents[s].state.Recovered? && a.db.intents[s].linked
    ensures var a, b := Exec(sys, es), Exec(sys, longer);
            Stands(b, pid, s, false, OpenGuard(FILL, true), a.db) && OnlyMoved(a, b, pid)
  {
    var seen := Exec(sys, es).db.intents[s];
    var third := RecoveryAsks(sys, es, pid, s, seen);
    var fourth := Move(sys, third, pid, YES, MarkRead(Recovered, OpenNext(FILL, true)));
    longer := Move(sys, fourth, pid, YES, OpenGuard(FILL, true));
    Composed(Exec(sys, es), Exec(sys, third), Exec(sys, fourth), pid);
  }

  lemma LateReads(sys: Sys, es: seq<Event>, pid: nat, s: Signal) returns (longer: seq<Event>)
    requires var a := Exec(sys, es);
             && AtPc(a, pid, s, false, OpenGuard(FILL, true)) && BothRows(a.db, s)
             && a.db.positions[s].status.Rejected? && a.db.intents[s].state.Recovered?
    ensures Stands(Exec(sys, longer), pid, s, false, LateWrite, Exec(sys, es).db)
  {
    var first := Move(sys, es, pid, YES, LateRead);
    longer := Move(sys, first, pid, YES, LateWrite);
  }

  lemma LateMarkLands(sys: Sys, es: seq<Event>, pid: nat, s: Signal) returns (longer: seq<Event>)
    requires var a := Exec(sys, es);
             && AtPc(a, pid, s, false, OpenGuard(FILL, true)) && BothRows(a.db, s)
             && a.db.positions[s].status.Rejected? && a.db.intents[s].state.Recovered?
    ensures Exec(sys, longer).db == SetState(Exec(sys, es).db, s, Persisted)
  {
    var read := LateReads(sys, es, pid, s);
    longer := End(sys, read, pid, YES);
  }

  /** An attempt and a sweep iteration are both under way on a waiting pair. */
  lemma BothUnderWay(sys: Sys, from: seq<Event>, s: Signal) returns (es: seq<Event>)
    requires Resumable(Exec(sys, from).db, s) && Exec(sys, from).db.intents[s].linked
    requires Exec(sys, from).procs == map[] && Tally(Exec(sys, from).fills, s) == 0
    ensures var a, b := Exec(sys, from), Exec(sys, es);
            && b.db == a.db && b.fills == a.fills && 2 !in b.procs
            && AtPc(b, 0, s, true, SubmitRead(0)) && AtPc(b, 1, s, false, FailGuard) && b.procs[1].sweep
  {
    es := PassesGate(sys, from, 0, s);
    es := ReachesSubmit(sys, es, 0, s);
    es := SweepDecides(sys, es, 1, s);
  }

  /** The sweep is about to reject a pair whose order stands at the broker, its reply lost. */
  lemma RejectsOverAFill(sys: Sys, from: seq<Event>, s: Signal) returns (es: seq<Event>)
    requires Resumable(Exec(sys, from).db, s) && Exec(sys, from).db.intents[s].linked
    requires Exec(sys, from).procs == map[] && Tally(Exec(sys, from).fills, s) == 0
    ensures var a, b := Exec(sys, from), Exec(sys, es);
            && Stands(b, 1, s, false, FailGuard, SetState(a.db, s, Submitted)) && Tally(b.fills, s) > 0
            && 2 !in b.procs
  {
    var both := BothUnderWay(sys, from, s);
    es := AttemptSends(sys, both, 0, s, YES);
  }

  /** One iteration marks RECOVERED and crashes, and the next one reads RECOVERED and PENDING. */
  lemma SplitIteration(sys: Sys, es: seq<Event>, pid: nat, s: Signal) returns (longer: seq<Event>)
    requires var a := Exec(sys, es);
             && pid !in a.procs && Tally(a.fills, s) > 0 && BothRows(a.db, s)
             && a.db.positions[s].status.Pending? && a.db.intents[s].state.Submitted? && a.db.intents[s].linked
    ensures var a, b := Exec(sys, es), Exec(sys, longer);
            Stands(b, pid, s, false, OpenGuard(FILL, true), SetState(a.db, s, Recovered)) && OthersKept(a, b, pid)
  {
    var crashed := RecoveryCrashes(sys, es, pid, s);
    longer := RecoveryReopens(sys, crashed, pid, s);
  }

  lemma SweepRejects(sys: Sys, es: seq<Event>, pid: nat, s: Signal) returns (longer: seq<Event>)
    requires var a := Exec(sys, es);
             AtPc(a, pid, s, false, FailGuard) && s in a.db.positions && a.db.positions[s].status.Pending?
    ensures var a, b := Exec(sys, es), Exec(sys, longer);
            b.db == SetStatus(a.db, s, Rejected) && OthersKept(a, b, pid)
  {
    longer := FailGoesOn(sys, es, pid, s, false);
  }

  /** The sweep's rejection comes in between, and the late mark lands on it. */
  lemma LateMarkLandsOnRejection(sys: Sys, es: seq<Event>, s: Signal) returns (longer: seq<Event>)
    requires var a := Exec(sys, es);
             && AtPc(a, 1, s, false, FailGuard) && AtPc(a, 2, s, false, OpenGuard(FILL, true)) && BothRows(a.db, s)
             && a.db.positions[s].status.Pending? && a.db.intents[s].state.Recovered?
    ensures Broken(Exec(sys, longer).db, s)
  {
    var rejected := SweepRejects(sys, es, 1, s);
    longer := LateMarkLands(sys, rejected, 2, s);
  }

  /** From any linked resumable pair, a split recovery iteration can leave PERSISTED over a REJECTED position: the
      order's reply is lost, an iteration marks RECOVERED and crashes, the next one reads PENDING, a sweep iteration
      rejects, and the late mark lands. */
  lemma LateMarkOverRejectedHappens(sys: Sys, from: seq<Event>, s: Signal) returns (es: seq<Event>)
    requires Resumable(Exec(sys, from).db, s) && Exec(sys, from).db.intents[s].linked
    requires Exec(sys, from).procs == map[] && Tally(Exec(sys, from).fills, s) == 0
    ensures Broken(Exec(sys, es).db, s)
  {
    es := RejectsOverAFill(sys, from, s);
    es := SplitIteration(sys, es, 2, s);
    es := LateMarkLandsOnRejection(sys, es, s);
  }
}
