/**
 One iteration of the startup pass or of the sweep, as small steps: run alone it does what the loops' specifications
 say, and while nothing interrupts the pass, PERSISTED always means opened.
 */
module Iterations {
  import opened Wrappers
  import opened ExecutionModel
  import opened Protocol
  import opened Agreement
  import opened Helpers
  import opened Integrity
  import opened Recovery
  import opened Expiry

  // ----- a process alone, with a choice per step -----

  /** Process pid steps in a row, the environment answering with the choices in turn. */
  function Solo(sys: Sys, pid: nat, cs: seq<Choice>): Sys
    decreases |cs|
  {
    if cs == [] then sys else Solo(Step(sys, Run(pid, cs[0])), pid, cs[1..])
  }

  lemma {:induction false} SoloAlone(sys: Sys, pid: nat, c: Choice, n: nat)
    ensures Solo(sys, pid, seq(n, _ => c)) == Alone(sys, pid, c, n)
    decreases n
  {
    if n > 0 {
      assert seq(n, _ => c)[1..] == seq(n - 1, _ => c);
      SoloAlone(Step(sys, Run(pid, c)), pid, c, n - 1);
    }
  }

  lemma SoloNext(sys: Sys, pid: nat, c: Choice, cs: seq<Choice>)
    ensures Solo(sys, pid, [c] + cs) == Solo(Step(sys, Run(pid, c)), pid, cs)
  {
    assert ([c] + cs)[1..] == cs;
  }

  /** After n steps alone the process has ended and left the rows r of its signal s. */
  predicate Ends(sys: Sys, pid: nat, c: Choice, n: nat, s: Signal, r: Row) {
    var end := Alone(sys, pid, c, n);
    RowOf(end.db, s) == r && pid !in end.procs
  }

  lemma EndsLater(sys: Sys, pid: nat, c: Choice, n: nat, s: Signal, r: Row, one: Sys)
    requires one == Step(sys, Run(pid, c)) && Ends(one, pid, c, n, s, r)
    ensures Ends(sys, pid, c, 1 + n, s, r)
  {
    AloneOnce(sys, pid, c);
    AloneTwice(sys, pid, c, 1, n);
  }

  /** The choices that answer the broker query of an iteration: before it, and from it on. */
  function Quoting(v: View, now: int): Choice {
    Choice(v.quoted, v.safe, Fill(0, 0.0), Unclear, false, Params(0.0, 0.0, None), now)
  }

  function Answering(v: View, now: int): Choice {
    var fill := if v.adopt.Some? then v.adopt.value else Fill(0, 0.0);
    Choice(v.adopt.Some?, v.safe, fill, Unclear, false, Params(0.0, 0.0, None), now)
  }

  // ----- the helpers after the query -----

  /** The recovery iteration's open with its unconditional last mark. */
  lemma LateMarkAlone(sys: Sys, pid: nat, c: Choice) returns (n: nat)
    requires pid in sys.procs && sys.procs[pid].pc == LateRead && sys.procs[pid].sig in sys.db.intents
    ensures var s := sys.procs[pid].sig; var end := Alone(sys, pid, c, n);
            RowOf(end.db, s) == MarkRow(RowOf(sys.db, s), Persisted) && pid !in end.procs
  {
    var one := Step(sys, Run(pid, c));
    AloneOnce(sys, pid, c);
    n := 1;
    if pid in one.procs {
      AloneOnce(one, pid, c);
      AloneTwice(sys, pid, c, 1, 1);
      n := 2;
    }
  }

  lemma LatePersistAlone(sys: Sys, pid: nat, c: Choice) returns (n: nat)
    requires pid in sys.procs && sys.procs[pid].pc == MarkRead(Persisted, LateNext)
             && sys.procs[pid].sig in sys.db.intents
    ensures var s := sys.procs[pid].sig; var end := Alone(sys, pid, c, n);
            RowOf(end.db, s) == MarkRow(MarkRow(RowOf(sys.db, s), Persisted), Persisted) && pid !in end.procs
  {
    var m := MarkAlone(sys, pid, c, Persisted, LateNext);
    var k := LateMarkAlone(Alone(sys, pid, c, m), pid, c);
    AloneTwice(sys, pid, c, m, k);
    n := m + k;
  }

  lemma LateConfirmDecides(sys: Sys, pid: nat, c: Choice)
    requires pid in sys.procs && sys.procs[pid].pc == ConfirmCheck(true) && sys.procs[pid].sig in sys.db.intents
    requires sys.db.intents[sys.procs[pid].sig].state.Recovered?
    ensures var end := Step(sys, Run(pid, c));
            && end.db == sys.db && pid in end.procs
            && end.procs[pid] == sys.procs[pid].(pc := MarkRead(Persisted, LateNext))
  {
  }

  lemma PersistTwice(r: Row)
    ensures MarkRow(MarkRow(r, Persisted), Persisted) == MarkRow(r, Persisted)
  {
  }

  lemma LateConfirmAlone(sys: Sys, pid: nat, c: Choice) returns (n: nat)
    requires pid in sys.procs && sys.procs[pid].pc == ConfirmCheck(true) && sys.procs[pid].sig in sys.db.intents
    requires sys.db.intents[sys.procs[pid].sig].state.Recovered?
    ensures var s := sys.procs[pid].sig; var end := Alone(sys, pid, c, n);
            RowOf(end.db, s) == MarkRow(RowOf(sys.db, s), Persisted) && pid !in end.procs
  {
    var one := Step(sys, Run(pid, c));
    AloneOnce(sys, pid, c);
    LateConfirmDecides(sys, pid, c);
    var m := LatePersistAlone(one, pid, c);
    AloneTwice(sys, pid, c, 1, m);
    PersistTwice(RowOf(sys.db, sys.procs[pid].sig));
    n := 1 + m;
  }

  lemma LateOpenDecides(sys: Sys, pid: nat, c: Choice, f: Fill)
    requires pid in sys.procs && sys.procs[pid].pc == OpenGuard(f, true) && sys.procs[pid].sig in sys.db.intents
    ensures var p := sys.procs[pid]; var r := RowOf(sys.db, p.sig); var end := Step(sys, Run(pid, c));
            && pid in end.procs && p.sig in end.db.intents && end.db.intents[p.sig] == sys.db.intents[p.sig]
            && (if StatusIn(r, Openable)
                then end.procs[pid] == p.(pc := ConfirmCheck(true))
                     && RowOf(end.db, p.sig) == r.(position := Some(FillPosition(r.position.value, f)))
                else end.procs[pid] == p.(pc := LateRead) && end.db == sys.db)
  {
  }

  lemma LateOpened(sys: Sys, pid: nat, c: Choice, f: Fill) returns (n: nat)
    requires pid in sys.procs && sys.procs[pid].pc == OpenGuard(f, true) && sys.procs[pid].sig in sys.db.intents
    requires sys.db.intents[sys.procs[pid].sig].state.Recovered?
             && StatusIn(RowOf(sys.db, sys.procs[pid].sig), Openable)
    ensures var s := sys.procs[pid].sig; var r := RowOf(sys.db, s); var end := Alone(sys, pid, c, n);
            && RowOf(end.db, s) == MarkRow(r.(position := Some(FillPosition(r.position.value, f))), Persisted)
            && pid !in end.procs
  {
    var one := Step(sys, Run(pid, c));
    AloneOnce(sys, pid, c);
    LateOpenDecides(sys, pid, c, f);
    var m := LateConfirmAlone(one, pid, c);
    AloneTwice(sys, pid, c, 1, m);
    n := 1 + m;
  }

  lemma LateSkipped(sys: Sys, pid: nat, c: Choice, f: Fill) returns (n: nat)
    requires pid in sys.procs && sys.procs[pid].pc == OpenGuard(f, true) && sys.procs[pid].sig in sys.db.intents
    requires !StatusIn(RowOf(sys.db, sys.procs[pid].sig), Openable)
    ensures var s := sys.procs[pid].sig; var end := Alone(sys, pid, c, n);
            RowOf(end.db, s) == MarkRow(RowOf(sys.db, s), Persisted) && pid !in end.procs
  {
    var one := Step(sys, Run(pid, c));
    AloneOnce(sys, pid, c);
    LateOpenDecides(sys, pid, c, f);
    var m := LateMarkAlone(one, pid, c);
    AloneTwice(sys, pid, c, 1, m);
    n := 1 + m;
  }

  lemma PersistsRecovered(r: Row, f: Fill)
    requires r.intent.Some? && r.intent.value.state.Recovered?
    ensures MarkRow(PersistRow(r, f), Persisted)
            == if StatusIn(r, Openable) then MarkRow(r.(position := Some(FillPosition(r.position.value, f))), Persisted)
               else MarkRow(r, Persisted)
  {
  }

  lemma LateOpenAlone(sys: Sys, pid: nat, c: Choice, f: Fill) returns (n: nat)
    requires pid in sys.procs && sys.procs[pid].pc == OpenGuard(f, true) && sys.procs[pid].sig in sys.db.intents
    requires sys.db.intents[sys.procs[pid].sig].state.Recovered?
    ensures var s := sys.procs[pid].sig; var end := Alone(sys, pid, c, n);
            RowOf(end.db, s) == MarkRow(PersistRow(RowOf(sys.db, s), f), Persisted) && pid !in end.procs
  {
    var r := RowOf(sys.db, sys.procs[pid].sig);
    PersistsRecovered(r, f);
    if StatusIn(r, Openable) {
      n := LateOpened(sys, pid, c, f);
    } else {
      n := LateSkipped(sys, pid, c, f);
    }
  }

  /** Its mark finds RECOVERED and changes nothing. */
  lemma LateAdoptMarks(sys: Sys, pid: nat, c: Choice, f: Fill) returns (n: nat)
    requires pid in sys.procs && sys.procs[pid].pc == MarkRead(Recovered, OpenNext(f, true))
    requires sys.procs[pid].sig in sys.db.intents && sys.db.intents[sys.procs[pid].sig].state.Recovered?
    ensures var p := sys.procs[pid]; var end := Alone(sys, pid, c, n);
            && RowOf(end.db, p.sig) == RowOf(sys.db, p.sig) && p.sig in end.db.intents
            && end.db.intents[p.sig].state.Recovered?
            && pid in end.procs && end.procs[pid] == p.(pc := OpenGuard(f, true))
  {
    var s := sys.procs[pid].sig;
    n := MarkAlone(sys, pid, c, Recovered, OpenNext(f, true));
    var end := Alone(sys, pid, c, n);
    assert RowOf(end.db, s) == RowOf(sys.db, s);
    assert end.db.intents[s] == RowOf(end.db, s).intent.value;
  }

  lemma EndsAfter(sys: Sys, pid: nat, c: Choice, m: nat, mid: Sys, n: nat, s: Signal, r: Row)
    requires mid == Alone(sys, pid, c, m) && Ends(mid, pid, c, n, s, r)
    ensures Ends(sys, pid, c, m + n, s, r)
  {
    AloneTwice(sys, pid, c, m, n);
  }

  lemma LateOpenEnds(sys: Sys, pid: nat, c: Choice, f: Fill, r: Row) returns (n: nat)
    requires pid in sys.procs && sys.procs[pid].pc == OpenGuard(f, true) && sys.procs[pid].sig in sys.db.intents
    requires sys.db.intents[sys.procs[pid].sig].state.Recovered? && r == RowOf(sys.db, sys.procs[pid].sig)
    ensures Ends(sys, pid, c, n, sys.procs[pid].sig, MarkRow(PersistRow(r, f), Persisted))
  {
    n := LateOpenAlone(sys, pid, c, f);
  }

  lemma LateAdoptAlone(sys: Sys, pid: nat, c: Choice, f: Fill) returns (n: nat)
    requires pid in sys.procs && sys.procs[pid].pc == MarkRead(Recovered, OpenNext(f, true))
    requires sys.procs[pid].sig in sys.db.intents && sys.db.intents[sys.procs[pid].sig].state.Recovered?
    ensures var s := sys.procs[pid].sig;
            Ends(sys, pid, c, n, s, MarkRow(PersistRow(RowOf(sys.db, s), f), Persisted))
  {
    var s := sys.procs[pid].sig;
    var r := RowOf(sys.db, s);
    var m := LateAdoptMarks(sys, pid, c, f);
    var mid := Alone(sys, pid, c, m);
    var k := LateOpenEnds(mid, pid, c, f, r);
    EndsAfter(sys, pid, c, m, mid, k, s, MarkRow(PersistRow(r, f), Persisted));
    n := m + k;
  }

  /** What follows a positive answer of the broker. */
  lemma AdoptAlone(sys: Sys, pid: nat, c: Choice, f: Fill, late: bool) returns (n: nat)
    requires pid in sys.procs && sys.procs[pid].pc == MarkRead(Recovered, OpenNext(f, late))
    requires sys.procs[pid].sig in sys.db.intents
    requires late == sys.db.intents[sys.procs[pid].sig].state.Recovered?
    ensures var s := sys.procs[pid].sig; var end := Alone(sys, pid, c, n); var t := TryRecoverRow(RowOf(sys.db, s), f);
            RowOf(end.db, s) == (if late then MarkRow(t, Persisted) else t) && pid !in end.procs
  {
    if late {
      n := LateAdoptAlone(sys, pid, c, f);
    } else {
      n := TryRecoverAlone(sys, pid, c, f);
    }
  }

  // ----- the startup pass -----

  /** The rows of a signal whose recovery iteration is about to ask the broker. */
  predicate Asks(sys: Sys, pid: nat, v: View) {
    && pid in sys.procs && sys.procs[pid].sig in sys.db.intents && sys.procs[pid].sig in sys.db.positions
    && var s := sys.procs[pid].sig; var i := sys.db.intents[s];
       && sys.procs[pid].pc == Adopt(Pass(i)) && Unresolved(i.state) && i.linked
       && (v.adopt.Some? ==> Tally(sys.fills, s) > 0) && v.quoted
       && !OpenWithTicket(RowOf(sys.db, s)) && !sys.db.positions[s].status.Rejected?
  }

  predicate Expires(i: Intent, v: View, now: int) {
    i.state.Created? && !i.submitted && FrozenUsable(i) && (Expired(i.createdAt, now) || !v.safe)
  }

  /** The rows do not change while it asks. */
  lemma QueryDecides(sys: Sys, pid: nat, v: View, now: int)
    requires Asks(sys, pid, v)
    ensures var p := sys.procs[pid]; var i := sys.db.intents[p.sig]; var c := Answering(v, now);
            var end := Step(sys, Run(pid, c));
            && end.db == sys.db
            && (if v.adopt.Some? || Expires(i, v, now)
                then pid in end.procs
                     && end.procs[pid]
                        == p.(pc := if v.adopt.Some? then MarkRead(Recovered, OpenNext(c.fill, i.state.Recovered?))
                                    else FailRead)
                else pid !in end.procs)
  {
  }

  lemma QueryRow(r: Row, v: View, now: int)
    requires r.intent.Some? && r.position.Some? && Unfinished(r) && r.intent.value.linked && v.quoted
    requires !OpenWithTicket(r) && !r.position.value.status.Rejected?
    ensures PassRow(r, v, now)
            == if v.adopt.Some?
               then var t := TryRecoverRow(r, v.adopt.value);
                    if r.intent.value.state.Recovered? then MarkRow(t, Persisted) else t
               else if Expires(r.intent.value, v, now) then FailRow(r)
               else r
  {
  }

  /** What follows the broker's answer does what PassRow says. */
  lemma AnsweredAlone(sys: Sys, pid: nat, c: Choice, v: View, now: int) returns (n: nat)
    requires pid in sys.procs && sys.procs[pid].sig in sys.db.intents && c == Answering(v, now)
    requires var i := sys.db.intents[sys.procs[pid].sig];
             if v.adopt.Some? then sys.procs[pid].pc == MarkRead(Recovered, OpenNext(c.fill, i.state.Recovered?))
             else Expires(i, v, now) && sys.procs[pid].pc == FailRead
    ensures var s := sys.procs[pid].sig; var r := RowOf(sys.db, s); var end := Alone(sys, pid, c, n);
            && RowOf(end.db, s)
               == (if v.adopt.Some?
                   then var t := TryRecoverRow(r, v.adopt.value);
                        if r.intent.value.state.Recovered? then MarkRow(t, Persisted) else t
                   else FailRow(r))
            && pid !in end.procs
  {
    if v.adopt.Some? {
      n := AdoptAlone(sys, pid, c, c.fill, sys.db.intents[sys.procs[pid].sig].state.Recovered?);
    } else {
      n := FailClosedAlone(sys, pid, c);
    }
  }

  lemma QueryEnds(sys: Sys, pid: nat, v: View, now: int, one: Sys) returns (n: nat)
    requires Asks(sys, pid, v) && one == Step(sys, Run(pid, Answering(v, now))) && pid in one.procs
    ensures var s := sys.procs[pid].sig;
            Ends(one, pid, Answering(v, now), n, s, PassRow(RowOf(sys.db, s), v, now))
  {
    QueryDecides(sys, pid, v, now);
    QueryRow(RowOf(sys.db, sys.procs[pid].sig), v, now);
    n := AnsweredAlone(one, pid, Answering(v, now), v, now);
  }

  lemma QueryEndsAtOnce(sys: Sys, pid: nat, v: View, now: int, one: Sys)
    requires Asks(sys, pid, v) && one == Step(sys, Run(pid, Answering(v, now))) && pid !in one.procs
    ensures var s := sys.procs[pid].sig;
            Ends(one, pid, Answering(v, now), 0, s, PassRow(RowOf(sys.db, s), v, now))
  {
    QueryDecides(sys, pid, v, now);
    QueryRow(RowOf(sys.db, sys.procs[pid].sig), v, now);
  }

  /** From its broker query on, an iteration does what PassRow says. */
  lemma QueriedAlone(sys: Sys, pid: nat, v: View, now: int) returns (n: nat)
    requires Asks(sys, pid, v)
    ensures var s := sys.procs[pid].sig; Ends(sys, pid, Answering(v, now), n, s, PassRow(RowOf(sys.db, s), v, now))
  {
    var s, c := sys.procs[pid].sig, Answering(v, now);
    var one := Step(sys, Run(pid, c));
    var k := 0;
    if pid in one.procs {
      k := QueryEnds(sys, pid, v, now, one);
    } else {
      QueryEndsAtOnce(sys, pid, v, now, one);
    }
    EndsLater(sys, pid, c, k, s, PassRow(RowOf(sys.db, s), v, now), one);
    n := 1 + k;
  }

  lemma PassReads(sys: Sys, pid: nat, v: View, now: int)
    requires pid in sys.procs && sys.procs[pid].sig in sys.db.intents
    requires sys.procs[pid].pc == PassPosition(sys.db.intents[sys.procs[pid].sig])
    requires var i := sys.db.intents[sys.procs[pid].sig]; Unresolved(i.state) && i.linked
    ensures var p := sys.procs[pid]; var r := RowOf(sys.db, p.sig); var end := Step(sys, Run(pid, Quoting(v, now)));
            && end.db == sys.db && end.fills == sys.fills
            && (pid !in end.procs ==> PassRow(r, v, now) == r)
            && (pid in end.procs ==>
                  && r.position.Some?
                  && end.procs[pid]
                     == p.(pc := if OpenWithTicket(r) then ForceWrite(Persisted)
                                 else if r.position.value.status.Rejected? then ForceWrite(IntentRejected)
                                 else Adopt(Pass(r.intent.value)))
                  && (end.procs[pid].pc.Adopt? ==> v.quoted))
  {
  }

  lemma Forced(sys: Sys, pid: nat, to: IntentState, c: Choice)
    requires pid in sys.procs && sys.procs[pid].pc == ForceWrite(to) && sys.procs[pid].sig in sys.db.intents
    ensures var s := sys.procs[pid].sig; var end := Step(sys, Run(pid, c));
            RowOf(end.db, s) == WithState(RowOf(sys.db, s), to) && pid !in end.procs
  {
  }

  /** From its read of the position on, an iteration does what PassRow says. */
  lemma PositionAlone(sys: Sys, pid: nat, v: View, now: int) returns (cs: seq<Choice>)
    requires pid in sys.procs && sys.procs[pid].sig in sys.db.intents
    requires sys.procs[pid].pc == PassPosition(sys.db.intents[sys.procs[pid].sig])
    requires var i := sys.db.intents[sys.procs[pid].sig]; Unresolved(i.state) && i.linked
    requires v.adopt.Some? ==> Tally(sys.fills, sys.procs[pid].sig) > 0
    ensures var s := sys.procs[pid].sig; var end := Solo(sys, pid, cs);
            RowOf(end.db, s) == PassRow(RowOf(sys.db, s), v, now) && pid !in end.procs
  {
    var one := Step(sys, Run(pid, Quoting(v, now)));
    PassReads(sys, pid, v, now);
    if pid !in one.procs {
      cs := [];
    } else if one.procs[pid].pc.Adopt? {
      var n := QueriedAlone(one, pid, v, now);
      cs := seq(n, _ => Answering(v, now));
      SoloAlone(one, pid, Answering(v, now), n);
    } else {
      cs := [Quoting(v, now)];
      Forced(one, pid, one.procs[pid].pc.to, Quoting(v, now));
      assert Solo(one, pid, cs) == Solo(Step(one, Run(pid, Quoting(v, now))), pid, []);
    }
    SoloNext(sys, pid, Quoting(v, now), cs);
    cs := [Quoting(v, now)] + cs;
  }

  /** A recovery iteration, uninterrupted, does what PassRow says. */
  lemma PassAlone(sys: Sys, pid: nat, v: View, now: int) returns (cs: seq<Choice>)
    requires pid in sys.procs && sys.procs[pid].pc == Entry(Recovery) && Unfinished(RowOf(sys.db, sys.procs[pid].sig))
    requires v.adopt.Some? ==> Tally(sys.fills, sys.procs[pid].sig) > 0
    ensures var s := sys.procs[pid].sig; var end := Solo(sys, pid, cs);
            RowOf(end.db, s) == PassRow(RowOf(sys.db, s), v, now) && pid !in end.procs
  {
    var s := sys.procs[pid].sig;
    var one := Step(sys, Run(pid, Quoting(v, now)));
    cs := [];
    if sys.db.intents[s].linked {
      assert one == sys.(procs := sys.procs[pid := sys.procs[pid].(pc := PassPosition(sys.db.intents[s]))]);
      cs := PositionAlone(one, pid, v, now);
    }
    SoloNext(sys, pid, Quoting(v, now), cs);
    cs := [Quoting(v, now)] + cs;
  }

  // ----- the sweep -----

  lemma SweepQueryDecides(sys: Sys, pid: nat, v: View, now: int)
    requires pid in sys.procs && sys.procs[pid].pc == Adopt(Sweep)
    requires v.adopt.Some? ==> Tally(sys.fills, sys.procs[pid].sig) > 0
    ensures var p := sys.procs[pid]; var c := Answering(v, now); var end := Step(sys, Run(pid, c));
            && end.db == sys.db && pid in end.procs
            && end.procs[pid]
               == p.(pc := if v.adopt.Some? then MarkRead(Recovered, OpenNext(c.fill, false)) else FailRead)
  {
  }

  lemma SweepQueryRow(r: Row, v: View, now: int)
    requires r.intent.Some? && Stale(r.intent.value, now) && r.intent.value.linked
             && StatusIn(r, Rejectable) && v.quoted
    ensures SweepRow(r, v) == if v.adopt.Some? then TryRecoverRow(r, v.adopt.value) else FailRow(r)
  {
  }

  lemma SweepAnsweredAlone(sys: Sys, pid: nat, c: Choice, v: View) returns (n: nat)
    requires pid in sys.procs && sys.procs[pid].sig in sys.db.intents && (v.adopt.Some? ==> c.fill == v.adopt.value)
    requires sys.procs[pid].pc == if v.adopt.Some? then MarkRead(Recovered, OpenNext(c.fill, false)) else FailRead
    ensures var s := sys.procs[pid].sig; var r := RowOf(sys.db, s); var end := Alone(sys, pid, c, n);
            && RowOf(end.db, s) == (if v.adopt.Some? then TryRecoverRow(r, v.adopt.value) else FailRow(r))
            && pid !in end.procs
  {
    if v.adopt.Some? {
      n := TryRecoverAlone(sys, pid, c, c.fill);
    } else {
      n := FailClosedAlone(sys, pid, c);
    }
  }

  predicate SweepAsks(sys: Sys, pid: nat, v: View, now: int) {
    && pid in sys.procs && sys.procs[pid].pc == Adopt(Sweep) && sys.procs[pid].sig in sys.db.intents
    && var s := sys.procs[pid].sig;
       && Stale(sys.db.intents[s], now) && sys.db.intents[s].linked && StatusIn(RowOf(sys.db, s), Rejectable)
       && v.quoted && (v.adopt.Some? ==> Tally(sys.fills, s) > 0)
  }

  lemma SweepQueryEnds(sys: Sys, pid: nat, v: View, now: int, one: Sys) returns (n: nat)
    requires SweepAsks(sys, pid, v, now) && one == Step(sys, Run(pid, Answering(v, now)))
    ensures var s := sys.procs[pid].sig; Ends(one, pid, Answering(v, now), n, s, SweepRow(RowOf(sys.db, s), v))
  {
    SweepQueryDecides(sys, pid, v, now);
    SweepQueryRow(RowOf(sys.db, sys.procs[pid].sig), v, now);
    n := SweepAnsweredAlone(one, pid, Answering(v, now), v);
  }

  lemma SweepQueriedAlone(sys: Sys, pid: nat, v: View, now: int) returns (n: nat)
    requires SweepAsks(sys, pid, v, now)
    ensures var s := sys.procs[pid].sig; Ends(sys, pid, Answering(v, now), n, s, SweepRow(RowOf(sys.db, s), v))
  {
    var s, c := sys.procs[pid].sig, Answering(v, now);
    var one := Step(sys, Run(pid, c));
    var k := SweepQueryEnds(sys, pid, v, now, one);
    EndsLater(sys, pid, c, k, s, SweepRow(RowOf(sys.db, s), v), one);
    n := 1 + k;
  }

  lemma SweepReads(sys: Sys, pid: nat, v: View, now: int)
    requires pid in sys.procs && sys.procs[pid].pc == SweepPosition && sys.procs[pid].sig in sys.db.intents
    requires var i := sys.db.intents[sys.procs[pid].sig]; Stale(i, now) && i.linked
    ensures var p := sys.procs[pid]; var r := RowOf(sys.db, p.sig); var end := Step(sys, Run(pid, Quoting(v, now)));
            && end.db == sys.db && end.fills == sys.fills
            && (pid !in end.procs ==> SweepRow(r, v) == r)
            && (pid in end.procs ==>
                  end.procs[pid] == p.(pc := if StatusIn(r, Terminal) then SweepSync else Adopt(Sweep))
                  && (end.procs[pid].pc.Adopt? ==> StatusIn(r, Rejectable) && v.quoted))
  {
  }

  lemma SweepSyncs(sys: Sys, pid: nat, v: View, now: int, c: Choice)
    requires pid in sys.procs && sys.procs[pid].pc == SweepSync && sys.procs[pid].sig in sys.db.intents
    requires var s := sys.procs[pid].sig;
             Stale(sys.db.intents[s], now) && sys.db.intents[s].linked && StatusIn(RowOf(sys.db, s), Terminal)
    ensures var s := sys.procs[pid].sig; var end := Step(sys, Run(pid, c));
            RowOf(end.db, s) == SweepRow(RowOf(sys.db, s), v) && pid !in end.procs
  {
  }

  lemma SweepPositionAlone(sys: Sys, pid: nat, v: View, now: int) returns (cs: seq<Choice>)
    requires pid in sys.procs && sys.procs[pid].pc == SweepPosition && sys.procs[pid].sig in sys.db.intents
    requires var i := sys.db.intents[sys.procs[pid].sig]; Stale(i, now) && i.linked
    requires v.adopt.Some? ==> Tally(sys.fills, sys.procs[pid].sig) > 0
    ensures var s := sys.procs[pid].sig; var end := Solo(sys, pid, cs);
            RowOf(end.db, s) == SweepRow(RowOf(sys.db, s), v) && pid !in end.procs
  {
    var one := Step(sys, Run(pid, Quoting(v, now)));
    SweepReads(sys, pid, v, now);
    if pid !in one.procs {
      cs := [];
    } else if one.procs[pid].pc.Adopt? {
      var n := SweepQueriedAlone(one, pid, v, now);
      cs := seq(n, _ => Answering(v, now));
      SoloAlone(one, pid, Answering(v, now), n);
    } else {
      cs := [Quoting(v, now)];
      SweepSyncs(one, pid, v, now, Quoting(v, now));
      assert Solo(one, pid, cs) == Solo(Step(one, Run(pid, Quoting(v, now))), pid, []);
    }
    SoloNext(sys, pid, Quoting(v, now), cs);
    cs := [Quoting(v, now)] + cs;
  }

  /** A sweep iteration, uninterrupted, does what SweepRow says. */
  lemma SweepAlone(sys: Sys, pid: nat, v: View, now: int) returns (cs: seq<Choice>)
    requires pid in sys.procs && sys.procs[pid].pc == Entry(Expiry) && sys.procs[pid].sig in sys.db.intents
    requires Stale(sys.db.intents[sys.procs[pid].sig], now)
    requires v.adopt.Some? ==> Tally(sys.fills, sys.procs[pid].sig) > 0
    ensures var s := sys.procs[pid].sig; var end := Solo(sys, pid, cs);
            RowOf(end.db, s) == SweepRow(RowOf(sys.db, s), v) && pid !in end.procs
  {
    var s := sys.procs[pid].sig;
    var one := Step(sys, Run(pid, Quoting(v, now)));
    cs := [];
    if sys.db.intents[s].linked {
      assert one == sys.(procs := sys.procs[pid := sys.procs[pid].(pc := SweepPosition)]);
      cs := SweepPositionAlone(one, pid, v, now);
    }
    SoloNext(sys, pid, Quoting(v, now), cs);
    cs := [Quoting(v, now)] + cs;
  }

  // ----- runs whose recovery iterations are one step -----

  predicate LateAfter(after: After) {
    match after
    case OpenNext(_, late) => late
    case PersistNext(late) => late
    case LateNext => true
    case _ => false
  }

  /** A recovery iteration that saw RECOVERED, between its read of the position and its last mark. */
  predicate MidPass(pc: Pc) {
    match pc
    case Adopt(caller) => caller.Pass? && caller.seen.state.Recovered?
    case MarkRead(_, after) => LateAfter(after)
    case MarkWrite(_, after) => LateAfter(after)
    case OpenGuard(_, late) => late
    case ConfirmCheck(late) => late
    case LateRead => true
    case LateWrite => true
    case _ => false
  }

  /** No other process steps on s while such an iteration is under way; crashes may hit it anywhere. */
  ghost predicate Uninterrupted(sys: Sys, e: Event, s: Signal) {
    e.Run? && e.pid in sys.procs && sys.procs[e.pid].sig == s ==>
      forall other | other in sys.procs && other != e.pid && sys.procs[other].sig == s :: !MidPass(sys.procs[other].pc)
  }

  ghost predicate PassesAtomic(sys: Sys, es: seq<Event>, s: Signal)
    decreases |es|
  {
    es != [] ==> Uninterrupted(sys, es[0], s) && PassesAtomic(Step(sys, es[0]), es[1..], s)
  }

  /** Such an iteration's position is not REJECTED. */
  ghost predicate MidPassInv(sys: Sys, s: Signal) {
    forall pid | pid in sys.procs && sys.procs[pid].sig == s && MidPass(sys.procs[pid].pc) ::
      s in sys.db.positions && !sys.db.positions[s].status.Rejected?
  }

  lemma MidPassNext(sys: Sys, pid: nat, p: Proc, c: Choice)
    requires NextPc(sys, pid, p, c).Some? && MidPass(NextPc(sys, pid, p, c).value)
    requires MidPass(p.pc) ==> p.sig in sys.db.positions && !sys.db.positions[p.sig].status.Rejected?
    ensures var next := NextDb(sys.db, p.sig, p.pc, c);
            p.sig in next.positions && !next.positions[p.sig].status.Rejected?
  {
  }

  lemma OthersRows(db: Db, s: Signal, pc: Pc, c: Choice, t: Signal)
    requires s != t
    ensures RowOf(NextDb(db, s, pc, c), t) == RowOf(db, t)
  {
  }

  lemma MidPassStep(sys: Sys, e: Event, s: Signal)
    requires MidPassInv(sys, s) && Uninterrupted(sys, e, s)
    ensures MidPassInv(Step(sys, e), s)
  {
    var next := Step(sys, e);
    if e.Run? && e.pid in sys.procs {
      var p := sys.procs[e.pid];
      if p.sig != s {
        OthersRows(sys.db, p.sig, p.pc, e.choice, s);
        assert RowOf(next.db, s) == RowOf(sys.db, s);
      }
      forall pid | pid in next.procs && next.procs[pid].sig == s && MidPass(next.procs[pid].pc)
        ensures s in next.db.positions && !next.db.positions[s].status.Rejected?
      {
        if pid == e.pid {
          MidPassNext(sys, pid, p, e.choice);
        } else {
          assert MidPass(sys.procs[pid].pc);
          assert RowOf(sys.db, s).position.Some? ==> RowOf(next.db, s) == RowOf(sys.db, s);
        }
      }
    }
  }

  lemma {:induction false} AtomicPassesAreNotLate(sys: Sys, es: seq<Event>, s: Signal)
    requires MidPassInv(sys, s) && PassesAtomic(sys, es, s)
    ensures NeverLate(sys, es, s)
    decreases |es|
  {
    if es != [] {
      MidPassStep(sys, es[0], s);
      AtomicPassesAreNotLate(Step(sys, es[0]), es[1..], s);
    }
  }

  /** With each recovery iteration one step, a PERSISTED intent's position is OPEN, CLOSE_REQUESTED or CLOSED for the
      rest of every run, whatever else interleaves. */
  lemma PersistedWithAtomicPasses(sys: Sys, es: seq<Event>, s: Signal)
    requires Initial(sys) && PassesAtomic(sys, es, s)
    ensures BothRows(Exec(sys, es).db, s) && Exec(sys, es).db.intents[s].state.Persisted?
            ==> Settled(Exec(sys, es).db.positions[s].status)
  {
    AtomicPassesAreNotLate(sys, es, s);
    PersistedMeansOpened(sys, es, s);
  }
}
