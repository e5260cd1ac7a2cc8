/**
 The other activities that write positions, in small steps: the adoption of a pending position without an intent, a stop
 change, and the reconciliation of stops with the broker.
 */
module Upkeep {
  import opened Wrappers
  import opened ExecutionModel
  import opened Protocol
  import opened Helpers

  lemma AdoptionStep(sys: Sys, pid: nat, c: Choice, one: Sys)
    requires pid in sys.procs && sys.procs[pid].pc.LegacyRead? && one == Step(sys, Run(pid, c))
    ensures one.db == sys.db
    ensures pid in one.procs ==> one.procs[pid] == sys.procs[pid].(pc := LegacyWrite(c.fill))
    ensures var s := sys.procs[pid].sig;
            pid in one.procs <==>
            && s in sys.db.positions && sys.db.positions[s].status.Pending? && sys.db.positions[s].engine
            && s !in sys.db.intents && Found(sys, s, c)
  {
  }

  lemma AdoptionWrites(sys: Sys, pid: nat, c: Choice, f: Fill)
    requires pid in sys.procs && sys.procs[pid].pc == LegacyWrite(f) && sys.procs[pid].sig in sys.db.positions
    ensures var s, end := sys.procs[pid].sig, Step(sys, Run(pid, c));
            && pid !in end.procs && s in end.db.positions && end.db.intents == sys.db.intents
            && end.db.positions[s] == sys.db.positions[s].(status := Open, ticket := Some(f.ticket),
                                                          params := sys.db.positions[s].params.(volume := f.volume))
  {
  }

  /** A legacy adoption, uninterrupted, opens the position with the match's ticket and volume exactly when it is a
      pending engine position without an intent that the broker reports; otherwise it changes nothing. */
  lemma AdoptionAlone(sys: Sys, pid: nat, c: Choice) returns (n: nat)
    requires pid in sys.procs && sys.procs[pid].pc == Entry(LegacyRecovery)
    ensures var s, end := sys.procs[pid].sig, Alone(sys, pid, c, n);
            && pid !in end.procs && end.db.intents == sys.db.intents
            && (if s in sys.db.positions && sys.db.positions[s].status.Pending? && sys.db.positions[s].engine
                   && s !in sys.db.intents && Found(sys, s, c)
                then s in end.db.positions
                     && end.db.positions[s].status.Open? && end.db.positions[s].ticket == Some(c.fill.ticket)
                     && end.db.positions[s].params == sys.db.positions[s].params.(volume := c.fill.volume)
                     && end.db.positions[s].engine
                else end.db == sys.db)
  {
    var one := Step(sys, Run(pid, c));
    AdoptionStep(sys, pid, c, one);
    AloneOnce(sys, pid, c);
    n := 1;
    if pid in one.procs {
      AdoptionWrites(one, pid, c, c.fill);
      AloneOnce(one, pid, c);
      AloneTwice(sys, pid, c, 1, 1);
      n := 2;
    }
  }

  /** Only the two stop levels of s changed, to those of q. */
  predicate StopsSet(a: Db, b: Db, s: Signal, q: Params) {
    && s in a.positions && b.intents == a.intents && b.positions.Keys == a.positions.Keys
    && (forall t | t in a.positions && t != s :: b.positions[t] == a.positions[t])
    && b.positions[s] == a.positions[s].(params := Params(a.positions[s].params.volume, q.stopLoss, q.takeProfit))
  }

  lemma StopsAre(db: Db, s: Signal, q: Params)
    requires s in db.positions
    ensures StopsSet(db, SetStops(db, s, q), s, q)
  {
  }

  /** The levels a stop change writes: a missing take-profit leaves the stored one. */
  function LevelsFor(db: Db, s: Signal, q: Params): Params
    requires s in db.positions
  {
    if q.takeProfit.Some? then q else q.(takeProfit := db.positions[s].params.takeProfit)
  }

  lemma ModifyStep(sys: Sys, pid: nat, c: Choice, one: Sys)
    requires pid in sys.procs && sys.procs[pid].pc.ModifyRead? && one == Step(sys, Run(pid, c))
    ensures one.db == sys.db
    ensures pid in one.procs ==> one.procs[pid] == sys.procs[pid].(pc := ModifyWrite(c.params))
    ensures var s := sys.procs[pid].sig;
            pid in one.procs <==>
            s in sys.db.positions && sys.db.positions[s].status.Open? && sys.db.positions[s].ticket.Some? && c.ok
  {
  }

  lemma ModifyWrites(sys: Sys, pid: nat, c: Choice, q: Params)
    requires pid in sys.procs && sys.procs[pid].pc == ModifyWrite(q) && sys.procs[pid].sig in sys.db.positions
    ensures var end := Step(sys, Run(pid, c));
            pid !in end.procs
            && StopsSet(sys.db, end.db, sys.procs[pid].sig, LevelsFor(sys.db, sys.procs[pid].sig, q))
  {
    StopsAre(sys.db, sys.procs[pid].sig, LevelsFor(sys.db, sys.procs[pid].sig, q));
  }

  /** A stop change, uninterrupted, sets the levels the broker accepted, exactly on an OPEN position with a broker
      ticket; a missing take-profit leaves the stored one, and volume, status, ticket and every other row stay. */
  lemma ModifyAlone(sys: Sys, pid: nat, c: Choice) returns (n: nat)
    requires pid in sys.procs && sys.procs[pid].pc == Entry(Modify)
    ensures var s, end := sys.procs[pid].sig, Alone(sys, pid, c, n);
            && pid !in end.procs
            && (if s in sys.db.positions && sys.db.positions[s].status.Open? && sys.db.positions[s].ticket.Some? && c.ok
                then var p := sys.db.positions[s].params;
                     StopsSet(sys.db, end.db, s, Params(p.volume, c.params.stopLoss,
                                                        if c.params.takeProfit.Some? then c.params.takeProfit
                                                        else p.takeProfit))
                else end.db == sys.db)
  {
    var one := Step(sys, Run(pid, c));
    ModifyStep(sys, pid, c, one);
    AloneOnce(sys, pid, c);
    n := 1;
    if pid in one.procs {
      ModifyWrites(one, pid, c, c.params);
      AloneOnce(one, pid, c);
      AloneTwice(sys, pid, c, 1, 1);
      n := 2;
    }
  }

  /** A reconciliation sets the broker's levels exactly on a position that holds a ticket and is not closed or
      rejected. */
  lemma ReconcileAlone(sys: Sys, pid: nat, c: Choice, q: Params)
    requires pid in sys.procs && sys.procs[pid].pc == Entry(Reconcile(q))
    ensures var s, end := sys.procs[pid].sig, Step(sys, Run(pid, c));
            && pid !in end.procs
            && (if s in sys.db.positions && sys.db.positions[s].ticket.Some?
                   && !sys.db.positions[s].status.Closed? && !sys.db.positions[s].status.Rejected?
                then StopsSet(sys.db, end.db, s, q)
                else end.db == sys.db)
  {
    if sys.procs[pid].sig in sys.db.positions {
      StopsAre(sys.db, sys.procs[pid].sig, q);
    }
  }
}
