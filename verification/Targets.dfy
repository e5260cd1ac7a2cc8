/**
 The startup pass throws on a CREATED intent without a positive take-profit. No run that is only given orders with one
 leaves such an intent.
 */
module Targets {
  import opened Wrappers
  import opened ExecutionModel
  import opened Protocol
  import opened Helpers
  import opened Integrity
  import opened Recovery

  predicate HasTarget(q: Params) {
    q.takeProfit.Some? && q.takeProfit.value > 0.0
  }

  /** Every attempt is started with a take-profit, and every recomputation that yields one yields a positive one. */
  predicate Targeted(e: Event) {
    match e
    case Spawn(_, _, job) => job.Attempt? ==> HasTarget(job.params)
    case Run(_, c) => c.params.takeProfit.Some? ==> HasTarget(c.params)
    case Crash(_) => true
  }

  /** The order parameters a program counter carries to the intent. */
  predicate CarriesTarget(pc: Pc) {
    match pc
    case GatePosition(_, q) => HasTarget(q)
    case GateIntent(_, q, _) => HasTarget(q)
    case Lock(_, q) => HasTarget(q)
    case ReserveRead(_, q) => HasTarget(q)
    case ReserveInsert(_, q, _) => HasTarget(q)
    case Refresh(_, q) => HasTarget(q)
    case _ => true
  }

  predicate Usable(db: Db, s: Signal) {
    s in db.intents ==> FrozenUsable(db.intents[s])
  }

  ghost predicate UsableInv(sys: Sys) {
    && (forall s :: Usable(sys.db, s))
    && (forall pid | pid in sys.procs :: CarriesTarget(sys.procs[pid].pc))
  }

  lemma UsableStays(db: Db, s: Signal, pc: Pc, c: Choice, t: Signal)
    requires Usable(db, t) && CarriesTarget(pc)
    ensures Usable(NextDb(db, s, pc, c), t)
  {
  }

  lemma StillCarries(sys: Sys, pid: nat, p: Proc, c: Choice)
    requires CarriesTarget(p.pc) && Targeted(Run(pid, c)) && NextPc(sys, pid, p, c).Some?
    ensures CarriesTarget(NextPc(sys, pid, p, c).value)
  {
  }

  lemma UsableStep(sys: Sys, e: Event)
    requires UsableInv(sys) && Targeted(e)
    ensures UsableInv(Step(sys, e))
  {
    if e.Run? && e.pid in sys.procs {
      var p := sys.procs[e.pid];
      forall s ensures Usable(Step(sys, e).db, s) {
        UsableStays(sys.db, p.sig, p.pc, e.choice, s);
      }
      if NextPc(sys, e.pid, p, e.choice).Some? {
        StillCarries(sys, e.pid, p, e.choice);
      }
    }
  }

  lemma {:induction false} UsableRun(sys: Sys, es: seq<Event>)
    requires UsableInv(sys) && forall i | 0 <= i < |es| :: Targeted(es[i])
    ensures UsableInv(Exec(sys, es))
    decreases |es|
  {
    if es != [] {
      UsableStep(sys, es[0]);
      UsableRun(Step(sys, es[0]), es[1..]);
    }
  }

  /** A pass over the tables of such a run never throws. */
  lemma PassNeverThrows(sys: Sys, es: seq<Event>, s: Signal, v: View, now: int)
    requires Initial(sys) && forall t :: Usable(sys.db, t)
    requires forall i | 0 <= i < |es| :: Targeted(es[i])
    ensures !TurnOf(RowOf(Exec(sys, es).db, s), v, now).Aborts?
  {
    UsableRun(sys, es);
    assert Usable(Exec(sys, es).db, s);
  }
}
