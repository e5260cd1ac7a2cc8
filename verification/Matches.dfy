/**
 What a position at the broker says about the intent: marking SUBMITTED precedes every order, so in no run does the
 broker hold a match for an intent that is still CREATED, and a pass or a sweep never adopts one.
 */
module Matches {
  import opened Wrappers
  import opened ExecutionModel
  import opened Protocol
  import opened Helpers
  import opened Integrity
  import opened Recovery
  import opened Expiry

  /** What an attempt knows from its SUBMITTED mark to its order, however many attempts overlap. */
  predicate Marked(db: Db, s: Signal, pc: Pc) {
    match pc
    case SubmitWrite(_) => s in db.intents
    case Send(_) => GateClosed(db, s)
    case Order(_) => GateClosed(db, s)
    case MarkRead(to, _) => !to.Created?
    case MarkWrite(to, _) => !to.Created?
    case ForceWrite(to) => !to.Created?
    case _ => true
  }

  /** A position at the broker belongs to an intent past CREATED, or to a row that never gets an intent. */
  predicate Matched(sys: Sys, s: Signal) {
    Tally(sys.fills, s) > 0 ==> if s in sys.db.intents then GateClosed(sys.db, s) else s in sys.db.positions
  }

  ghost predicate MatchInv(sys: Sys, s: Signal) {
    && Matched(sys, s) && CreatedFresh(sys.db, s)
    && forall pid | pid in sys.procs && sys.procs[pid].sig == s :: Marked(sys.db, s, sys.procs[pid].pc)
  }

  lemma MatchedStays(sys: Sys, pid: nat, c: Choice, s: Signal)
    requires pid in sys.procs && Matched(sys, s) && CreatedFresh(sys.db, s)
    requires sys.procs[pid].sig == s ==> Marked(sys.db, s, sys.procs[pid].pc)
    ensures Matched(Advance(sys, pid, c), s) && CreatedFresh(Advance(sys, pid, c).db, s)
  {
  }

  lemma MarkedStays(db: Db, s: Signal, pc: Pc, c: Choice, t: Signal, known: Pc)
    requires Marked(db, t, known) && (s == t ==> Marked(db, s, pc))
    ensures Marked(NextDb(db, s, pc, c), t, known)
  {
    assert GateClosed(db, t) ==> GateClosed(NextDb(db, s, pc, c), t);
  }

  lemma BecomesMarked(sys: Sys, pid: nat, p: Proc, c: Choice)
    requires Marked(sys.db, p.sig, p.pc) && NextPc(sys, pid, p, c).Some?
    ensures Marked(NextDb(sys.db, p.sig, p.pc, c), p.sig, NextPc(sys, pid, p, c).value)
  {
  }

  lemma MatchStep(sys: Sys, e: Event, s: Signal)
    requires MatchInv(sys, s)
    ensures MatchInv(Step(sys, e), s)
  {
    if e.Run? && e.pid in sys.procs {
      var p, next := sys.procs[e.pid], Step(sys, e);
      MatchedStays(sys, e.pid, e.choice, s);
      forall pid | pid in next.procs && next.procs[pid].sig == s ensures Marked(next.db, s, next.procs[pid].pc) {
        assert Marked(sys.db, s, sys.procs[pid].pc);
        if pid == e.pid {
          BecomesMarked(sys, pid, p, e.choice);
        } else {
          MarkedStays(sys.db, p.sig, p.pc, e.choice, s, sys.procs[pid].pc);
        }
      }
    }
  }

  lemma {:induction false} MatchRun(sys: Sys, es: seq<Event>, s: Signal)
    requires MatchInv(sys, s)
    ensures MatchInv(Exec(sys, es), s)
    decreases |es|
  {
    if es != [] {
      MatchStep(sys, es[0], s);
      MatchRun(Step(sys, es[0]), es[1..], s);
    }
  }

  /** After every run, however attempts overlap, an intent the broker holds a match for has left CREATED. */
  lemma MatchMeansSubmitted(sys: Sys, es: seq<Event>, s: Signal, c: Choice)
    requires Initial(sys) && Found(Exec(sys, es), s, c) && s in Exec(sys, es).db.intents
    ensures !Exec(sys, es).db.intents[s].state.Created?
  {
    assert FillsKnown(sys, s) && CreatedFresh(sys.db, s);
    MatchRun(sys, es, s);
  }

  // ----- what that means for the two loops -----

  /** The broker's answers to a loop that starts after the run: it only reports positions it holds. */
  ghost predicate Truthful(sys: Sys, views: Signal -> View) {
    forall s :: views(s).adopt.Some? ==> Tally(sys.fills, s) > 0
  }

  lemma AdoptedWasSubmitted(sys: Sys, es: seq<Event>, views: Signal -> View, s: Signal)
    requires Initial(sys) && Truthful(Exec(sys, es), views)
    requires views(s).adopt.Some? && s in Exec(sys, es).db.intents
    ensures !Exec(sys, es).db.intents[s].state.Created?
  {
    assert Tally(Exec(sys, es).fills, s) > 0;
    MatchMeansSubmitted(sys, es, s, Choice(true, true, Fill(0, 0.0), Unclear, false, Params(0.0, 0.0, None), 0));
  }

  /**
   After a whole pass over the tables of any run, every examined position that is REJECTED, before or because of the
   pass, has a REJECTED intent, and every one that is OPEN with a ticket has a PERSISTED intent.
   */
  lemma PassResolves(sys: Sys, es: seq<Event>, b: Db, user: string, batch: seq<Signal>, views: Signal -> View,
                     now: int, s: Signal)
    requires Initial(sys) && Truthful(Exec(sys, es), views)
    requires var a := Exec(sys, es).db;
             && Listed(a, user, batch) && Passed(a, b, batch, views, now)
             && s in batch && a.intents[s].linked && s in a.positions
    ensures s in b.intents && s in b.positions
    ensures b.positions[s].status.Rejected? ==> b.intents[s].state.IntentRejected?
    ensures b.positions[s].status.Open? && b.positions[s].ticket.Some? ==> b.intents[s].state.Persisted?
  {
    PassResolvesRows(Exec(sys, es).db, b, user, batch, views, now, s);
    if views(s).adopt.Some? {
      AdoptedWasSubmitted(sys, es, views, s);
    }
  }

  /** A sweep over the tables of any run never adopts: each selected intent with a waiting position that the broker
      can be asked about expires. */
  lemma SweepNeverAdopts(sys: Sys, es: seq<Event>, user: string, batch: seq<Signal>, views: Signal -> View, now: int,
                         s: Signal)
    requires Initial(sys) && Truthful(Exec(sys, es), views)
    requires Selected(Exec(sys, es).db, user, batch, now) && s in batch
    ensures var r := RowOf(Exec(sys, es).db, s);
            && !SweepTurnOf(r, views(s)).Adopts?
            && (r.intent.value.linked && StatusIn(r, Rejectable) && views(s).quoted
                ==> SweepTurnOf(r, views(s)).Expires?)
  {
    if views(s).adopt.Some? {
      AdoptedWasSubmitted(sys, es, views, s);
    }
  }
}
