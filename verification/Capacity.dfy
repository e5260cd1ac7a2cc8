/**
 Capacity slots over arbitrary interleavings: every slot is accounted for, and the number of consumed
 slots never exceeds the limit the create transactions were given.
 */
module Capacity {
  import opened Wrappers
  import opened ExecutionModel
  import opened Protocol

  /** The four ways a step can move a capacity slot. */
  datatype Movement = Creation | Revival | Release | Closing

  /** The slot movement a step makes, with the signal it concerns. */
  function Moves(sys: Sys, e: Event): Option<(Movement, Signal)> {
    if !e.Run? || e.pid !in sys.procs then None
    else
      var p := sys.procs[e.pid];
      var s, db := p.sig, sys.db;
      match p.pc
      case ReserveInsert(_, _, _) =>
        // the transaction's result is "created"
        if s !in db.positions && s !in db.intents then Some((Creation, s)) else None
      case LegacyWrite(_) =>
        // the unguarded adoption finds a position that is CLOSED or REJECTED by now
        if s in db.positions && db.positions[s].engine && Terminal(db.positions[s].status)
        then Some((Revival, s)) else None
      case FailGuard =>
        // released = true
        if s in db.positions && db.positions[s].engine && Rejectable(db.positions[s].status)
        then Some((Release, s)) else None
      case CloseGuard =>
        // applied = true
        if s in db.positions && db.positions[s].engine && Closeable(db.positions[s].status)
        then Some((Closing, s)) else None
      case _ => None
  }

  function Slot(db: Db, s: Signal): int {
    if Holds(db, s) then 1 else 0
  }

  /** How many steps of a run move a slot of signal s in the given way. */
  function SignalMoves(sys: Sys, es: seq<Event>, s: Signal, m: Movement): nat
    decreases |es|
  {
    if es == [] then 0
    else (if Moves(sys, es[0]) == Some((m, s)) then 1 else 0) + SignalMoves(Step(sys, es[0]), es[1..], s, m)
  }

  predicate MovesUser(mv: Option<(Movement, Signal)>, user: string, m: Movement) {
    mv.Some? && mv.value.0 == m && mv.value.1.user == user
  }

  /** How many steps of a run move a slot of the user in the given way. */
  function UserMoves(sys: Sys, es: seq<Event>, user: string, m: Movement): nat
    decreases |es|
  {
    if es == [] then 0
    else (if MovesUser(Moves(sys, es[0]), user, m) then 1 else 0) + UserMoves(Step(sys, es[0]), es[1..], user, m)
  }

  function Change(mv: Option<(Movement, Signal)>): int {
    if mv.None? then 0
    else match mv.value.0
         case Creation => 1
         case Revival => 1
         case Release => -1
         case Closing => -1
  }

  lemma OtherSlots(db: Db, t: Signal, pc: Pc, c: Choice, s: Signal)
    requires s != t
    ensures Slot(NextDb(db, t, pc, c), s) == Slot(db, s)
  {
  }

  lemma SlotStep(sys: Sys, e: Event, s: Signal)
    ensures Slot(Step(sys, e).db, s)
            == Slot(sys.db, s)
               + (if Moves(sys, e).Some? && Moves(sys, e).value.1 == s then Change(Moves(sys, e)) else 0)
  {
    if e.Run? && e.pid in sys.procs {
      var p := sys.procs[e.pid];
      if p.sig != s {
        OtherSlots(sys.db, p.sig, p.pc, e.choice, s);
      }
    }
  }

  /** A signal's slot at the end of a run is what it was, plus creations and revivals, minus releases and closes. */
  lemma {:induction false} SlotConservation(sys: Sys, es: seq<Event>, s: Signal)
    ensures Slot(Exec(sys, es).db, s)
            == Slot(sys.db, s) + SignalMoves(sys, es, s, Creation) + SignalMoves(sys, es, s, Revival)
               - SignalMoves(sys, es, s, Release) - SignalMoves(sys, es, s, Closing)
    decreases |es|
  {
    if es != [] {
      SlotStep(sys, es[0], s);
      SlotConservation(Step(sys, es[0]), es[1..], s);
    }
  }

  lemma CreationNeedsNoRow(sys: Sys, es: seq<Event>, s: Signal)
    requires s in sys.db.positions
    ensures SignalMoves(sys, es, s, Creation) == 0 && s in Exec(sys, es).db.positions
    decreases |es|
  {
    if es != [] {
      CreationNeedsNoRow(Step(sys, es[0]), es[1..], s);
    }
  }

  /** A signal is created at most once, and only in a run that starts without its position. */
  lemma {:induction false} CreatedAtMostOnce(sys: Sys, es: seq<Event>, s: Signal)
    ensures SignalMoves(sys, es, s, Creation) <= 1
    decreases |es|
  {
    if es != [] {
      var next := Step(sys, es[0]);
      if Moves(sys, es[0]) == Some((Creation, s)) {
        CreationNeedsNoRow(next, es[1..], s);
      } else {
        CreatedAtMostOnce(next, es[1..], s);
      }
    }
  }

  /** Each slot is given back at most once, unless a stale legacy adoption took it again. */
  lemma ReleasedAtMostOnce(sys: Sys, es: seq<Event>, s: Signal)
    ensures SignalMoves(sys, es, s, Release) + SignalMoves(sys, es, s, Closing) <= 1 + SignalMoves(sys, es, s, Revival)
  {
    SlotConservation(sys, es, s);
    CreatedAtMostOnce(sys, es, s);
    if s in sys.db.positions {
      CreationNeedsNoRow(sys, es, s);
    }
  }

  /** CLOSED and REJECTED are left in a step exactly when that step is a stale legacy adoption write. */
  lemma TerminalLeftExactlyByRevival(sys: Sys, e: Event, s: Signal)
    requires s in sys.db.positions && Terminal(sys.db.positions[s].status)
    ensures s in Step(sys, e).db.positions
    ensures Step(sys, e).db.positions[s].status != sys.db.positions[s].status
            <==> e.Run? && e.pid in sys.procs && sys.procs[e.pid].sig == s && sys.procs[e.pid].pc.LegacyWrite?
  {
  }

  /** No step of the run is a legacy-adoption write on s. */
  predicate NoAdoption(sys: Sys, es: seq<Event>, s: Signal)
    decreases |es|
  {
    es == []
    || (!(es[0].Run? && es[0].pid in sys.procs && sys.procs[es[0].pid].sig == s && sys.procs[es[0].pid].pc.LegacyWrite?)
        && NoAdoption(Step(sys, es[0]), es[1..], s))
  }

  /** CLOSED and REJECTED are absorbing over every run without a legacy-adoption write on the row. */
  lemma {:induction false} TerminalAbsorbing(sys: Sys, es: seq<Event>, s: Signal)
    requires s in sys.db.positions && Terminal(sys.db.positions[s].status) && NoAdoption(sys, es, s)
    ensures s in Exec(sys, es).db.positions
    ensures Exec(sys, es).db.positions[s].status == sys.db.positions[s].status
    decreases |es|
  {
    if es != [] {
      TerminalLeftExactlyByRevival(sys, es[0], s);
      TerminalAbsorbing(Step(sys, es[0]), es[1..], s);
    }
  }

  // ----- the user's count -----

  lemma SlotsChange(a: Db, b: Db, s: Signal, user: string)
    requires forall t :: t != s ==> (Holds(a, t) <==> Holds(b, t))
    ensures Consumed(b, user) == Consumed(a, user) + (if s.user == user then Slot(b, s) - Slot(a, s) else 0)
  {
    var x, y := Slots(a, user), Slots(b, user);
    if s.user != user || (Holds(a, s) <==> Holds(b, s)) {
      assert x == y;
    } else if Holds(a, s) {
      assert x == y + {s};
    } else {
      assert y == x + {s};
    }
  }

  lemma ConsumedStep(sys: Sys, e: Event, user: string)
    ensures Consumed(Step(sys, e).db, user)
            == Consumed(sys.db, user)
               + (if Moves(sys, e).Some? && Moves(sys, e).value.1.user == user then Change(Moves(sys, e)) else 0)
  {
    if e.Run? && e.pid in sys.procs {
      var s := sys.procs[e.pid].sig;
      SlotStep(sys, e, s);
      SlotsChange(sys.db, Step(sys, e).db, s, user);
    }
  }

  /** The user's consumed slots at the end of a run, from the results the helpers reported. */
  lemma {:induction false} ConsumedConservation(sys: Sys, es: seq<Event>, user: string)
    ensures Consumed(Exec(sys, es).db, user)
            == Consumed(sys.db, user) + UserMoves(sys, es, user, Creation) + UserMoves(sys, es, user, Revival)
               - UserMoves(sys, es, user, Release) - UserMoves(sys, es, user, Closing)
    decreases |es|
  {
    if es != [] {
      ConsumedStep(sys, es[0], user);
      ConsumedConservation(Step(sys, es[0]), es[1..], user);
    }
  }

  /** Only the insert of the locked create transaction raises the count, apart from a stale legacy adoption. */
  lemma OnlyCreateRaises(sys: Sys, e: Event, user: string)
    requires Consumed(Step(sys, e).db, user) > Consumed(sys.db, user)
    ensures e.Run? && e.pid in sys.procs && sys.procs[e.pid].sig.user == user
    ensures sys.procs[e.pid].pc.ReserveInsert? || sys.procs[e.pid].pc.LegacyWrite?
  {
    ConsumedStep(sys, e, user);
  }

  // ----- the limit -----

  /** The capacity limit a program counter still carries towards the create transaction. */
  function Carried(pc: Pc): Option<int> {
    match pc
    case GatePosition(limit, _) => Some(limit)
    case GateIntent(limit, _, _) => Some(limit)
    case Lock(limit, _) => Some(limit)
    case ReserveRead(limit, _) => Some(limit)
    case ReserveInsert(limit, _, _) => Some(limit)
    case _ => None
  }

  /** Every attempt spawned for the user is given a limit of at most max. */
  predicate LimitsWithin(es: seq<Event>, user: string, max: nat) {
    forall i | 0 <= i < |es| ::
      es[i].Spawn? && es[i].sig.user == user && es[i].job.Attempt? ==> es[i].job.limit <= max
  }

  predicate InTransaction(pc: Pc) {
    pc.ReserveRead? || pc.ReserveInsert?
  }

  /** The lock discipline of one process, and what a transaction past its count still knows. */
  predicate Disciplined(sys: Sys, pid: nat, user: string, max: nat, revived: nat)
    requires pid in sys.procs
  {
    var p := sys.procs[pid];
    p.sig.user == user ==>
      && (Carried(p.pc).Some? ==> Carried(p.pc).value <= max)
      && (InTransaction(p.pc) ==> user in sys.locks && sys.locks[user] == pid)
      && (p.pc.ReserveInsert? ==> p.pc.consumed < p.pc.limit && Consumed(sys.db, user) <= p.pc.consumed + revived)
  }

  ghost predicate CapacityInv(sys: Sys, user: string, start: nat, max: nat, revived: nat) {
    && Consumed(sys.db, user) <= (if start > max then start else max) + revived
    && forall pid | pid in sys.procs :: Disciplined(sys, pid, user, max, revived)
  }

  function Revived(sys: Sys, e: Event, user: string): nat {
    if MovesUser(Moves(sys, e), user, Revival) then 1 else 0
  }

  /** A process that does not take the step keeps its lock, and its count only goes stale downwards. */
  lemma BystanderDisciplined(sys: Sys, e: Event, pid: nat, user: string, max: nat, revived: nat)
    requires pid in sys.procs && e.pid != pid
    requires Disciplined(sys, pid, user, max, revived)
    requires e.pid in sys.procs ==> Disciplined(sys, e.pid, user, max, revived)
    ensures pid in Step(sys, e).procs
    ensures Disciplined(Step(sys, e), pid, user, max, revived + Revived(sys, e, user))
  {
    ConsumedStep(sys, e, user);
    var p := sys.procs[pid];
    assert Step(sys, e).procs[pid] == p;
    if p.sig.user == user && InTransaction(p.pc) && e.Run? && e.pid in sys.procs {
      // the lock is pid's, so the process that steps is not in a transaction of this user
      assert sys.procs[e.pid].sig.user == user ==> !InTransaction(sys.procs[e.pid].pc);
    }
  }

  /** Where a create transaction can come from, and what it carries forward. */
  lemma EntersTransaction(sys: Sys, pid: nat, p: Proc, c: Choice)
    requires NextPc(sys, pid, p, c).Some?
    ensures var n := NextPc(sys, pid, p, c).value;
            && (Carried(n).Some? ==> Carried(n) == Carried(p.pc))
            && (n.ReserveRead? ==> p.pc.Lock? && p.sig.user !in sys.locks)
            && (n.ReserveInsert? ==>
                  p.pc.ReserveRead? && n.consumed == Consumed(sys.db, p.sig.user)
                      && ReservationAllowed(n.consumed, n.limit))
  {
  }

  lemma ActorDisciplined(sys: Sys, e: Event, user: string, max: nat, revived: nat)
    requires e.Run? && e.pid in sys.procs
    requires Disciplined(sys, e.pid, user, max, revived)
    ensures e.pid in Step(sys, e).procs ==> Disciplined(Step(sys, e), e.pid, user, max, revived + Revived(sys, e, user))
  {
    var p := sys.procs[e.pid];
    if NextPc(sys, e.pid, p, e.choice).Some? {
      EntersTransaction(sys, e.pid, p, e.choice);
      assert NextPc(sys, e.pid, p, e.choice).value.ReserveInsert? ==> Step(sys, e).db == sys.db;
    }
  }

  lemma CountWithinLimit(sys: Sys, e: Event, user: string, start: nat, max: nat, revived: nat)
    requires CapacityInv(sys, user, start, max, revived)
    ensures Consumed(Step(sys, e).db, user) <= (if start > max then start else max) + revived + Revived(sys, e, user)
  {
    ConsumedStep(sys, e, user);
    if e.Run? && e.pid in sys.procs {
      assert Disciplined(sys, e.pid, user, max, revived);
    }
  }

  /** One step keeps the invariant: the count a transaction read can only go down before its insert. */
  lemma CapacityStep(sys: Sys, e: Event, user: string, start: nat, max: nat, revived: nat)
    requires CapacityInv(sys, user, start, max, revived)
    requires e.Spawn? && e.sig.user == user && e.job.Attempt? ==> e.job.limit <= max
    ensures CapacityInv(Step(sys, e), user, start, max, revived + Revived(sys, e, user))
  {
    var next := Step(sys, e);
    CountWithinLimit(sys, e, user, start, max, revived);
    forall pid | pid in next.procs
      ensures Disciplined(next, pid, user, max, revived + Revived(sys, e, user))
    {
      if e.pid != pid {
        BystanderDisciplined(sys, e, pid, user, max, revived);
      } else if e.Run? {
        ActorDisciplined(sys, e, user, max, revived);
      }
    }
  }

  lemma {:induction false} CapacityRun(sys: Sys, es: seq<Event>, user: string, start: nat, max: nat, revived: nat)
    requires CapacityInv(sys, user, start, max, revived)
    requires LimitsWithin(es, user, max)
    ensures CapacityInv(Exec(sys, es), user, start, max, revived + UserMoves(sys, es, user, Revival))
    decreases |es|
  {
    if es != [] {
      CapacityStep(sys, es[0], user, start, max, revived);
      CapacityRun(Step(sys, es[0]), es[1..], user, start, max, revived + Revived(sys, es[0], user));
    }
  }

  /**
   In every interleaving, with crashes anywhere, the consumed slots stay within the limit (or within what
   was already consumed at the start), plus one for each stale legacy adoption.
   */
  lemma CapacityNeverExceeded(sys: Sys, es: seq<Event>, user: string, max: nat)
    requires Initial(sys)
    requires LimitsWithin(es, user, max)
    ensures var start := Consumed(sys.db, user);
            Consumed(Exec(sys, es).db, user) <= (if start > max then start else max) + UserMoves(sys, es, user, Revival)
  {
    CapacityRun(sys, es, user, Consumed(sys.db, user), max, 0);
  }
}
