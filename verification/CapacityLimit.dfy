/**
 Exactly when the capacity limit can be exceeded: when some pending order of the user has no intent row and stands at
 the broker, so that two overlapping legacy adoptions can both read it.
 */
module CapacityLimit {
  import opened Wrappers
  import opened ExecutionModel
  import opened Protocol
  import opened Capacity
  import opened Overlap
  import opened Races

  /** A pending engine position without an intent that the broker holds a fill for. */
  predicate Adoptable(sys: Sys, s: Signal) {
    && s in sys.db.positions && sys.db.positions[s].status.Pending? && sys.db.positions[s].engine
    && s !in sys.db.intents && Tally(sys.fills, s) > 0
  }

  ghost predicate Exposed(sys: Sys, user: string) {
    exists s: Signal :: s.user == user && Adoptable(sys, s)
  }

  // ----- without such a row nothing is ever revived -----

  /** The row can never be adopted, whatever happens to it. */
  predicate Sealed(sys: Sys, s: Signal) {
    || s in sys.db.intents
    || s !in sys.db.positions
    || !sys.db.positions[s].engine || !sys.db.positions[s].status.Pending? || Tally(sys.fills, s) == 0
  }

  ghost predicate SealedInv(sys: Sys, s: Signal) {
    && Sealed(sys, s)
    && (forall pid | pid in sys.procs && sys.procs[pid].sig == s :: !sys.procs[pid].pc.LegacyWrite?)
    && (Lone(sys.db, s) ==>
          forall pid | pid in sys.procs && sys.procs[pid].sig == s :: Stuck(sys.db, s, sys.procs[pid].pc))
  }

  /** A lone row's fills do not change, and no row becomes pending again. */
  lemma SealedStays(sys: Sys, pid: nat, c: Choice, s: Signal)
    requires pid in sys.procs && Sealed(sys, s) && (sys.procs[pid].sig == s ==> !sys.procs[pid].pc.LegacyWrite?)
    requires Lone(sys.db, s) && sys.procs[pid].sig == s ==> Stuck(sys.db, s, sys.procs[pid].pc)
    ensures Sealed(Advance(sys, pid, c), s)
  {
  }

  lemma NoAdoptionRead(sys: Sys, pid: nat, p: Proc, c: Choice)
    requires Sealed(sys, p.sig) && !p.pc.LegacyWrite? && NextPc(sys, pid, p, c).Some?
    ensures !NextPc(sys, pid, p, c).value.LegacyWrite?
  {
  }

  lemma LoneBefore(db: Db, s: Signal, pc: Pc, c: Choice, t: Signal)
    requires Lone(NextDb(db, s, pc, c), t)
    ensures Lone(db, t) && (t in db.positions <==> t in NextDb(db, s, pc, c).positions)
  {
  }

  lemma SealedStep(sys: Sys, e: Event, s: Signal)
    requires SealedInv(sys, s)
    ensures SealedInv(Step(sys, e), s)
  {
    var next := Step(sys, e);
    if e.Run? && e.pid in sys.procs {
      var p := sys.procs[e.pid];
      SealedStays(sys, e.pid, e.choice, s);
      forall pid | pid in next.procs && next.procs[pid].sig == s
        ensures !next.procs[pid].pc.LegacyWrite?
        ensures Lone(next.db, s) ==> Stuck(next.db, s, next.procs[pid].pc)
      {
        assert sys.procs[pid].sig == s;
        if pid == e.pid {
          NoAdoptionRead(sys, pid, p, e.choice);
        }
        if Lone(next.db, s) {
          LoneBefore(sys.db, p.sig, p.pc, e.choice, s);
          assert Stuck(sys.db, s, sys.procs[pid].pc);
          if pid == e.pid {
            StuckStep(sys, pid, p, e.choice);
          }
        }
      }
    }
  }

  ghost predicate UserSealed(sys: Sys, user: string) {
    forall s: Signal | s.user == user :: SealedInv(sys, s)
  }

  lemma NoRevival(sys: Sys, e: Event, user: string)
    requires UserSealed(sys, user)
    ensures !MovesUser(Moves(sys, e), user, Revival)
  {
    if e.Run? && e.pid in sys.procs && sys.procs[e.pid].sig.user == user {
      assert SealedInv(sys, sys.procs[e.pid].sig);
    }
  }

  lemma {:induction false} SealedRun(sys: Sys, es: seq<Event>, user: string)
    requires UserSealed(sys, user)
    ensures UserMoves(sys, es, user, Revival) == 0
    decreases |es|
  {
    if es != [] {
      NoRevival(sys, es[0], user);
      forall s: Signal | s.user == user ensures SealedInv(Step(sys, es[0]), s) {
        assert SealedInv(sys, s);
        SealedStep(sys, es[0], s);
      }
      SealedRun(Step(sys, es[0]), es[1..], user);
    }
  }

  /** Without an adoptable row the limit holds in every run. */
  lemma LimitHolds(sys: Sys, es: seq<Event>, user: string, max: nat)
    requires Initial(sys) && Consumed(sys.db, user) <= max && LimitsWithin(es, user, max) && !Exposed(sys, user)
    ensures Consumed(Exec(sys, es).db, user) <= max
  {
    forall s: Signal | s.user == user ensures SealedInv(sys, s) {
      assert !Adoptable(sys, s);
    }
    SealedRun(sys, es, user);
    CapacityNeverExceeded(sys, es, user, max);
  }

  // ----- with one, two overlapping adoptions exceed it -----

  /** No event of the run starts an attempt, so any limit is kept. */
  predicate NoAttempts(es: seq<Event>) {
    forall i | 0 <= i < |es| :: es[i].Spawn? ==> !es[i].job.Attempt?
  }

  lemma AdoptionDecides(sys: Sys, pid: nat, p: Proc)
    requires Adoptable(sys, p.sig) && p.pc.LegacyRead?
    ensures NextPc(sys, pid, p, YES) == Some(LegacyWrite(FILL))
  {
  }

  lemma AdoptionReads(sys: Sys, es: seq<Event>, pid: nat, s: Signal) returns (longer: seq<Event>)
    requires pid !in Exec(sys, es).procs && Adoptable(Exec(sys, es), s)
    ensures NoAttempts(es) ==> NoAttempts(longer)
    ensures var a, b := Exec(sys, es), Exec(sys, longer);
            Stands(b, pid, s, false, LegacyWrite(FILL), a.db) && OnlyMoved(a, b, pid)
  {
    var first := Begin(sys, es, pid, s, LegacyRecovery);
    AdoptionDecides(Exec(sys, first), pid, Exec(sys, first).procs[pid]);
    longer := Move(sys, first, pid, YES, LegacyWrite(FILL));
  }

  /** Two overlapping passes read the row. */
  lemma BothRead(sys: Sys, s: Signal) returns (es: seq<Event>)
    requires Initial(sys) && Adoptable(sys, s)
    ensures NoAttempts(es)
    ensures var b := Exec(sys, es);
            && AtPc(b, 0, s, false, LegacyWrite(FILL)) && AtPc(b, 1, s, false, LegacyWrite(FILL))
            && b.db == sys.db && b.locks == map[] && b.procs.Keys == {0, 1}
  {
    assert Exec(sys, []) == sys;
    var first := AdoptionReads(sys, [], 0, s);
    es := AdoptionReads(sys, first, 1, s);
    assert OthersKept(Exec(sys, first), Exec(sys, es), 1);
  }

  /** One of them opens it with its broker ticket. */
  lemma OneOpens(sys: Sys, s: Signal) returns (es: seq<Event>)
    requires Initial(sys) && Adoptable(sys, s)
    ensures NoAttempts(es)
    ensures var b := Exec(sys, es);
            && Stands(b, 0, s, false, LegacyWrite(FILL), OpenPosition(sys.db, s, FILL))
            && b.locks == map[] && b.procs.Keys == {0}
  {
    var read := BothRead(sys, s);
    es := End(sys, read, 1, YES);
  }

  lemma CloseDecides(sys: Sys, pid: nat, p: Proc)
    requires p.sig in sys.db.positions && sys.db.positions[p.sig].status.Open?
             && sys.db.positions[p.sig].ticket.Some? && p.pc.CloseRead?
    ensures NextPc(sys, pid, p, YES) == Some(CloseGuard)
  {
  }

  lemma CloseReads(sys: Sys, es: seq<Event>, pid: nat, s: Signal) returns (longer: seq<Event>)
    requires var a := Exec(sys, es);
             && pid !in a.procs && s in a.db.positions && a.db.positions[s].status.Open?
             && a.db.positions[s].ticket.Some?
    ensures NoAttempts(es) ==> NoAttempts(longer)
    ensures var a, b := Exec(sys, es), Exec(sys, longer);
            b == a.(procs := b.procs) && AtPc(b, pid, s, false, CloseGuard) && b.procs - {pid} == a.procs
  {
    var first := Begin(sys, es, pid, s, Close);
    CloseDecides(Exec(sys, first), pid, Exec(sys, first).procs[pid]);
    longer := Move(sys, first, pid, YES, CloseGuard);
  }

  /** A close of a position the broker can close. */
  lemma Closes(sys: Sys, es: seq<Event>, pid: nat, s: Signal) returns (longer: seq<Event>)
    requires var a := Exec(sys, es);
             && pid !in a.procs && s in a.db.positions && a.db.positions[s].status.Open?
             && a.db.positions[s].ticket.Some?
    ensures NoAttempts(es) ==> NoAttempts(longer)
    ensures var a, b := Exec(sys, es), Exec(sys, longer);
            b.db == SetStatus(a.db, s, Closed) && b.locks == a.locks && b.procs == a.procs
  {
    var read := CloseReads(sys, es, pid, s);
    longer := End(sys, read, pid, YES);
  }

  /** The second adoption stands before its write, over a row that is closed by now. */
  predicate AboutToRevive(b: Sys, s: Signal) {
    && AtPc(b, 0, s, false, LegacyWrite(FILL)) && b.procs.Keys == {0} && b.locks == map[]
    && s in b.db.positions && b.db.positions[s].status.Closed? && b.db.positions[s].engine
  }

  lemma ClosedUnderAdoption(sys: Sys, s: Signal) returns (es: seq<Event>)
    requires Initial(sys) && Adoptable(sys, s)
    ensures NoAttempts(es)
    ensures var b := Exec(sys, es);
            AboutToRevive(b, s) && b.db == SetStatus(OpenPosition(sys.db, s, FILL), s, Closed)
  {
    var filled := OneOpens(sys, s);
    es := Closes(sys, filled, 1, s);
  }

  // ----- the freed slot is reserved again -----

  lemma ReachesLock(sys: Sys, es: seq<Event>, pid: nat, t: Signal, max: nat) returns (longer: seq<Event>)
    requires var a := Exec(sys, es);
             pid !in a.procs && t !in a.db.positions && t !in a.db.intents
    requires LimitsWithin(es, t.user, max)
    ensures LimitsWithin(longer, t.user, max)
    ensures var a, b := Exec(sys, es), Exec(sys, longer);
            Stands(b, pid, t, true, Lock(max, ORDER), a.db) && OnlyMoved(a, b, pid)
  {
    var first := Begin(sys, es, pid, t, Attempt(max, ORDER));
    var second := Move(sys, first, pid, YES, GateIntent(max, ORDER, None));
    longer := Move(sys, second, pid, YES, Lock(max, ORDER));
    Composed(Exec(sys, es), Exec(sys, first), Exec(sys, second), pid);
  }

  lemma TakesLock(sys: Sys, es: seq<Event>, pid: nat, t: Signal, max: nat) returns (longer: seq<Event>)
    requires var a := Exec(sys, es);
             pid !in a.procs && t !in a.db.positions && t !in a.db.intents && a.locks == map[]
    requires LimitsWithin(es, t.user, max)
    ensures LimitsWithin(longer, t.user, max)
    ensures var a, b := Exec(sys, es), Exec(sys, longer);
            && Stands(b, pid, t, true, ReserveRead(max, ORDER), a.db) && OthersKept(a, b, pid)
            && b.locks == map[t.user := pid]
  {
    var reached := ReachesLock(sys, es, pid, t, max);
    longer := Then(sys, reached, Run(pid, YES));
  }

  lemma CountsSlots(sys: Sys, es: seq<Event>, pid: nat, t: Signal, max: nat) returns (longer: seq<Event>)
    requires var a := Exec(sys, es);
             && AtPc(a, pid, t, true, ReserveRead(max, ORDER)) && a.locks == map[t.user := pid]
             && Consumed(a.db, t.user) < max && t !in a.db.positions && t !in a.db.intents
    ensures longer == es + [Run(pid, YES)]
    ensures var a, b := Exec(sys, es), Exec(sys, longer);
            && Stands(b, pid, t, true, ReserveInsert(max, ORDER, Consumed(a.db, t.user)), a.db)
            && OthersKept(a, b, pid) && b.locks == a.locks
  {
    longer := Then(sys, es, Run(pid, YES));
  }

  lemma Inserts(sys: Sys, es: seq<Event>, pid: nat, t: Signal, max: nat, n: nat) returns (longer: seq<Event>)
    requires var a := Exec(sys, es);
             && AtPc(a, pid, t, true, ReserveInsert(max, ORDER, n)) && a.locks == map[t.user := pid]
             && t !in a.db.positions && t !in a.db.intents
    ensures longer == es + [Run(pid, YES)]
    ensures var a, b := Exec(sys, es), Exec(sys, longer);
            b.db == InsertPair(a.db, t, ORDER, 0) && OthersKept(a, b, pid) && b.locks == map[]
  {
    longer := Then(sys, es, Run(pid, YES));
  }

  lemma Crashes(sys: Sys, es: seq<Event>, pid: nat) returns (longer: seq<Event>)
    requires Exec(sys, es).locks == map[]
    ensures longer == es + [Crash(pid)]
    ensures var a, b := Exec(sys, es), Exec(sys, longer);
            b.db == a.db && b.locks == map[] && b.procs == a.procs - {pid}
  {
    longer := Then(sys, es, Crash(pid));
  }

  /** It counts, inserts and crashes. */
  lemma ReservesLocked(sys: Sys, es: seq<Event>, pid: nat, t: Signal, max: nat) returns (longer: seq<Event>)
    requires var a := Exec(sys, es);
             && AtPc(a, pid, t, true, ReserveRead(max, ORDER)) && a.locks == map[t.user := pid]
             && Consumed(a.db, t.user) < max && t !in a.db.positions && t !in a.db.intents
    requires LimitsWithin(es, t.user, max)
    ensures LimitsWithin(longer, t.user, max)
    ensures var a, b := Exec(sys, es), Exec(sys, longer);
            b.db == InsertPair(a.db, t, ORDER, 0) && b.locks == map[] && OthersKept(a, b, pid) && pid !in b.procs
  {
    var counted := CountsSlots(sys, es, pid, t, max);
    var inserted := Inserts(sys, counted, pid, t, max, Consumed(Exec(sys, es).db, t.user));
    longer := Crashes(sys, inserted, pid);
  }

  /** An attempt on t reserves a slot and crashes. */
  lemma Reserves(sys: Sys, es: seq<Event>, pid: nat, t: Signal, max: nat) returns (longer: seq<Event>)
    requires var a := Exec(sys, es);
             && pid !in a.procs && t !in a.db.positions && t !in a.db.intents && a.locks == map[]
             && Consumed(a.db, t.user) < max
    requires LimitsWithin(es, t.user, max)
    ensures LimitsWithin(longer, t.user, max)
    ensures var a, b := Exec(sys, es), Exec(sys, longer);
            b.db == InsertPair(a.db, t, ORDER, 0) && b.locks == map[] && b.procs == a.procs
  {
    var locked := TakesLock(sys, es, pid, t, max);
    longer := ReservesLocked(sys, locked, pid, t, max);
    assert Exec(sys, longer).procs == Exec(sys, es).procs;
  }

  /** A string longer than every id in use. */
  lemma {:induction false} LongId(used: set<Signal>) returns (id: string)
    ensures forall s | s in used :: |s.id| < |id|
    decreases |used|
  {
    if used == {} {
      id := "t";
    } else {
      var s :| s in used;
      var rest := LongId(used - {s});
      id := rest + s.id + "t";
    }
  }

  /** The user can always come up with a new signal. */
  lemma NewSignal(db: Db, user: string) returns (t: Signal)
    ensures t.user == user && t !in db.positions && t !in db.intents
  {
    var id := LongId(db.positions.Keys + db.intents.Keys);
    t := Signal(user, id);
    assert t in db.positions.Keys + db.intents.Keys ==> |t.id| < |id|;
  }

  lemma InsertConsumes(db: Db, t: Signal)
    requires t !in db.positions && t !in db.intents
    ensures Consumed(InsertPair(db, t, ORDER, 0), t.user) == Consumed(db, t.user) + 1
  {
    SlotsChange(db, InsertPair(db, t, ORDER, 0), t, t.user);
  }

  /** New signals use up the rest of the limit while the second adoption waits. */
  lemma {:induction false} FillsUp(sys: Sys, es: seq<Event>, s: Signal, max: nat) returns (longer: seq<Event>)
    requires AboutToRevive(Exec(sys, es), s) && LimitsWithin(es, s.user, max)
    requires Consumed(Exec(sys, es).db, s.user) <= max
    ensures AboutToRevive(Exec(sys, longer), s) && Consumed(Exec(sys, longer).db, s.user) == max
    ensures LimitsWithin(longer, s.user, max)
    decreases max - Consumed(Exec(sys, es).db, s.user)
  {
    if Consumed(Exec(sys, es).db, s.user) == max {
      longer := es;
    } else {
      var t := NewSignal(Exec(sys, es).db, s.user);
      var reserved := Reserves(sys, es, 1, t, max);
      InsertConsumes(Exec(sys, es).db, t);
      longer := FillsUp(sys, reserved, s, max);
    }
  }

  lemma Revives(sys: Sys, es: seq<Event>, s: Signal, max: nat) returns (longer: seq<Event>)
    requires AboutToRevive(Exec(sys, es), s) && LimitsWithin(es, s.user, max)
    ensures Consumed(Exec(sys, longer).db, s.user) == Consumed(Exec(sys, es).db, s.user) + 1
    ensures LimitsWithin(longer, s.user, max)
  {
    longer := End(sys, es, 0, YES);
    SlotsChange(Exec(sys, es).db, Exec(sys, longer).db, s, s.user);
  }

  /** From any tables with an adoptable row, the second of two overlapping adoptions exceeds the limit. */
  lemma StaleAdoptionExceedsTheLimit(sys: Sys, s: Signal, max: nat) returns (es: seq<Event>)
    requires Initial(sys) && Adoptable(sys, s) && Consumed(sys.db, s.user) <= max
    ensures LimitsWithin(es, s.user, max) && Consumed(Exec(sys, es).db, s.user) > max
  {
    es := ClosedUnderAdoption(sys, s);
    SlotsChange(sys.db, Exec(sys, es).db, s, s.user);
    es := FillsUp(sys, es, s, max);
    es := Revives(sys, es, s, max);
  }

  // ----- exactly when -----

  predicate Exceeds(sys: Sys, es: seq<Event>, user: string, max: nat) {
    LimitsWithin(es, user, max) && Consumed(Exec(sys, es).db, user) > max
  }

  /** A user within the limit can get past it exactly when one of the user's pending orders has no intent row and
      stands at the broker. */
  lemma LimitExceededExactly(sys: Sys, user: string, max: nat)
    requires Initial(sys) && Consumed(sys.db, user) <= max
    ensures (exists es :: Exceeds(sys, es, user, max)) <==> Exposed(sys, user)
  {
    if Exposed(sys, user) {
      var s: Signal :| s.user == user && Adoptable(sys, s);
      var es := StaleAdoptionExceedsTheLimit(sys, s, max);
      assert Exceeds(sys, es, user, max);
    } else {
      forall es ensures !Exceeds(sys, es, user, max) {
        if LimitsWithin(es, user, max) {
          LimitHolds(sys, es, user, max);
        }
      }
    }
  }
}
