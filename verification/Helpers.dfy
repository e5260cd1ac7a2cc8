/**
 What each helper of the execution-intent protocol does to the two rows of its signal when nothing
 interferes, and that this is what its small steps add up to when they run alone.
 */
module Helpers {
  import opened Wrappers
  import opened ExecutionModel
  import opened Protocol

  /** The two rows of one signal. */
  datatype Row = Row(position: Option<Position>, intent: Option<Intent>)

  function RowOf(db: Db, s: Signal): Row {
    Row(if s in db.positions then Some(db.positions[s]) else None,
        if s in db.intents then Some(db.intents[s]) else None)
  }

  /** Rows of every other signal are as they were. */
  ghost predicate Untouched(a: Db, b: Db, s: Signal) {
    forall t | t != s :: RowOf(a, t) == RowOf(b, t)
  }

  function WithState(r: Row, to: IntentState): Row
    requires r.intent.Some?
  {
    var i := r.intent.value;
    r.(intent := Some(i.(state := to, submitted := i.submitted || to.Submitted?)))
  }

  function WithStatus(r: Row, to: Status): Row
    requires r.position.Some?
  {
    r.(position := Some(r.position.value.(status := to)))
  }

  predicate StatusIn(r: Row, ok: Status -> bool) {
    r.position.Some? && ok(r.position.value.status)
  }

  /** markExecutionIntentX: a transition the table allows is taken, any other is skipped. */
  function MarkRow(r: Row, to: IntentState): Row {
    if r.intent.Some? && r.intent.value.state != to && CanTransition(r.intent.value.state, to)
    then WithState(r, to) else r
  }

  function FailRow(r: Row): Row {
    if StatusIn(r, Rejectable) then MarkRow(WithStatus(r, Rejected), IntentRejected) else r
  }

  function CloseRow(r: Row): Row {
    if StatusIn(r, Closeable) then WithStatus(r, Closed) else r
  }

  function FillPosition(p: Position, f: Fill): Position {
    p.(status := Open, ticket := Some(f.ticket), params := p.params.(volume := f.volume))
  }

  /** persistPositionOpenFromBrokerResult */
  function PersistRow(r: Row, f: Fill): Row {
    if !StatusIn(r, Openable) then r
    else
      var filled := r.(position := Some(FillPosition(r.position.value, f)));
      if filled.intent.Some? && NeedsConfirm(filled.intent.value)
      then MarkRow(MarkRow(filled, BrokerConfirmed), Persisted)
      else MarkRow(filled, Persisted)
  }

  /** tryRecoverExecutionIntentFromBroker, when the broker holds the fill f for the signal's comment. */
  function TryRecoverRow(r: Row, f: Fill): Row {
    PersistRow(MarkRow(r, Recovered), f)
  }

  // ----- the helpers run alone -----

  /** n steps of process pid in a row, the environment answering c each time. */
  function Alone(sys: Sys, pid: nat, c: Choice, n: nat): Sys
    decreases n
  {
    if n == 0 then sys else Alone(Step(sys, Run(pid, c)), pid, c, n - 1)
  }

  lemma AloneOnce(sys: Sys, pid: nat, c: Choice)
    ensures Alone(sys, pid, c, 1) == Step(sys, Run(pid, c))
  {
    assert Alone(sys, pid, c, 1) == Alone(Step(sys, Run(pid, c)), pid, c, 0);
  }

  /** What a mark helper leaves to its process. */
  predicate Continues(sys: Sys, pid: nat, p: Proc, after: After) {
    match ResumeAt(after)
    case None => pid !in sys.procs
    case Some(pc) => pid in sys.procs && sys.procs[pid] == p.(pc := pc)
  }

  lemma MarkSkips(sys: Sys, pid: nat, c: Choice, to: IntentState, after: After)
    requires pid in sys.procs && sys.procs[pid].pc == MarkRead(to, after) && sys.procs[pid].sig in sys.db.intents
    requires MarkRow(RowOf(sys.db, sys.procs[pid].sig), to) == RowOf(sys.db, sys.procs[pid].sig)
    ensures var end := Step(sys, Run(pid, c));
            end.db == sys.db && Continues(end, pid, sys.procs[pid], after)
  {
  }

  lemma MarkWrites(sys: Sys, pid: nat, c: Choice, to: IntentState, after: After)
    requires pid in sys.procs && sys.procs[pid].pc == MarkWrite(to, after) && sys.procs[pid].sig in sys.db.intents
    ensures var s := sys.procs[pid].sig; var end := Step(sys, Run(pid, c));
            RowOf(end.db, s) == WithState(RowOf(sys.db, s), to) && Continues(end, pid, sys.procs[pid], after)
  {
  }

  /** Marking alone: at most a read and a write, then on to what follows. */
  lemma MarkAlone(sys: Sys, pid: nat, c: Choice, to: IntentState, after: After) returns (n: nat)
    requires pid in sys.procs && sys.procs[pid].pc == MarkRead(to, after) && sys.procs[pid].sig in sys.db.intents
    ensures var s := sys.procs[pid].sig; var end := Alone(sys, pid, c, n);
            RowOf(end.db, s) == MarkRow(RowOf(sys.db, s), to) && Continues(end, pid, sys.procs[pid], after)
  {
    AloneOnce(sys, pid, c);
    n := 1;
    if MarkRow(RowOf(sys.db, sys.procs[pid].sig), to) == RowOf(sys.db, sys.procs[pid].sig) {
      MarkSkips(sys, pid, c, to, after);
    } else {
      var one := Step(sys, Run(pid, c));
      assert one.db == sys.db && pid in one.procs && one.procs[pid] == sys.procs[pid].(pc := MarkWrite(to, after));
      MarkWrites(one, pid, c, to, after);
      AloneOnce(one, pid, c);
      AloneTwice(sys, pid, c, 1, 1);
      n := 2;
    }
  }

  lemma AloneTwice(sys: Sys, pid: nat, c: Choice, m: nat, n: nat)
    ensures Alone(sys, pid, c, m + n) == Alone(Alone(sys, pid, c, m), pid, c, n)
    decreases m
  {
    if m > 0 {
      AloneTwice(Step(sys, Run(pid, c)), pid, c, m - 1, n);
    }
  }

  /** failClosedPendingExecution, uninterrupted, does what FailRow says. */
  lemma FailClosedAlone(sys: Sys, pid: nat, c: Choice) returns (n: nat)
    requires pid in sys.procs && sys.procs[pid].pc == FailRead && sys.procs[pid].sig in sys.db.intents
    ensures var s := sys.procs[pid].sig; var end := Alone(sys, pid, c, n);
            RowOf(end.db, s) == FailRow(RowOf(sys.db, s)) && pid !in end.procs
  {
    var s := sys.procs[pid].sig;
    var one := Step(sys, Run(pid, c));
    AloneOnce(sys, pid, c);
    n := 1;
    if StatusIn(RowOf(sys.db, s), Rejectable) {
      var two := Step(one, Run(pid, c));
      AloneOnce(one, pid, c);
      AloneTwice(sys, pid, c, 1, 1);
      var m := MarkAlone(two, pid, c, IntentRejected, Stop);
      AloneTwice(sys, pid, c, 2, m);
      n := 2 + m;
    }
  }

  predicate NeedsConfirm(i: Intent) {
    !i.state.Recovered? && !i.state.BrokerConfirmed?
  }

  lemma ConfirmDecides(sys: Sys, pid: nat, c: Choice)
    requires pid in sys.procs && sys.procs[pid].pc == ConfirmCheck(false) && sys.procs[pid].sig in sys.db.intents
    ensures var p := sys.procs[pid]; var end := Step(sys, Run(pid, c));
            && end.db == sys.db && pid in end.procs
            && end.procs[pid] == p.(pc := if NeedsConfirm(sys.db.intents[p.sig])
                                          then MarkRead(BrokerConfirmed, PersistNext(false))
                                          else MarkRead(Persisted, Stop))
  {
  }

  /** The two marks of a confirmed open. */
  lemma ConfirmThenPersist(sys: Sys, pid: nat, c: Choice) returns (n: nat)
    requires pid in sys.procs && sys.procs[pid].pc == MarkRead(BrokerConfirmed, PersistNext(false))
    requires sys.procs[pid].sig in sys.db.intents
    ensures var s := sys.procs[pid].sig; var end := Alone(sys, pid, c, n);
            RowOf(end.db, s) == MarkRow(MarkRow(RowOf(sys.db, s), BrokerConfirmed), Persisted) && pid !in end.procs
  {
    var m := MarkAlone(sys, pid, c, BrokerConfirmed, PersistNext(false));
    var k := MarkAlone(Alone(sys, pid, c, m), pid, c, Persisted, Stop);
    AloneTwice(sys, pid, c, m, k);
    n := m + k;
  }

  lemma ConfirmNeeded(sys: Sys, pid: nat, c: Choice) returns (n: nat)
    requires pid in sys.procs && sys.procs[pid].pc == ConfirmCheck(false) && sys.procs[pid].sig in sys.db.intents
    requires NeedsConfirm(sys.db.intents[sys.procs[pid].sig])
    ensures var s := sys.procs[pid].sig; var end := Alone(sys, pid, c, n);
            RowOf(end.db, s) == MarkRow(MarkRow(RowOf(sys.db, s), BrokerConfirmed), Persisted) && pid !in end.procs
  {
    var one := Step(sys, Run(pid, c));
    AloneOnce(sys, pid, c);
    ConfirmDecides(sys, pid, c);
    var k := ConfirmThenPersist(one, pid, c);
    AloneTwice(sys, pid, c, 1, k);
    n := 1 + k;
  }

  lemma ConfirmSkipped(sys: Sys, pid: nat, c: Choice) returns (n: nat)
    requires pid in sys.procs && sys.procs[pid].pc == ConfirmCheck(false) && sys.procs[pid].sig in sys.db.intents
    requires !NeedsConfirm(sys.db.intents[sys.procs[pid].sig])
    ensures var s := sys.procs[pid].sig; var end := Alone(sys, pid, c, n);
            RowOf(end.db, s) == MarkRow(RowOf(sys.db, s), Persisted) && pid !in end.procs
  {
    var one := Step(sys, Run(pid, c));
    AloneOnce(sys, pid, c);
    ConfirmDecides(sys, pid, c);
    var k := MarkAlone(one, pid, c, Persisted, Stop);
    AloneTwice(sys, pid, c, 1, k);
    n := 1 + k;
  }

  /** Persisting an opened position, from its confirmation on. */
  lemma ConfirmAlone(sys: Sys, pid: nat, c: Choice) returns (n: nat)
    requires pid in sys.procs && sys.procs[pid].pc == ConfirmCheck(false) && sys.procs[pid].sig in sys.db.intents
    ensures var s := sys.procs[pid].sig; var end := Alone(sys, pid, c, n); var r := RowOf(sys.db, s);
            && RowOf(end.db, s) == (if NeedsConfirm(r.intent.value)
                                    then MarkRow(MarkRow(r, BrokerConfirmed), Persisted)
                                    else MarkRow(r, Persisted))
            && pid !in end.procs
  {
    if NeedsConfirm(sys.db.intents[sys.procs[pid].sig]) {
      n := ConfirmNeeded(sys, pid, c);
    } else {
      n := ConfirmSkipped(sys, pid, c);
    }
  }

  lemma OpenDecides(sys: Sys, pid: nat, c: Choice, f: Fill)
    requires pid in sys.procs && sys.procs[pid].pc == OpenGuard(f, false) && sys.procs[pid].sig in sys.db.intents
    ensures var p := sys.procs[pid]; var r := RowOf(sys.db, p.sig); var end := Step(sys, Run(pid, c));
            if StatusIn(r, Openable) then
              && pid in end.procs && end.procs[pid] == p.(pc := ConfirmCheck(false)) && p.sig in end.db.intents
              && RowOf(end.db, p.sig) == r.(position := Some(FillPosition(r.position.value, f)))
            else end.db == sys.db && pid !in end.procs
  {
  }

  /** persistPositionOpenFromBrokerResult, uninterrupted, does what PersistRow says. */
  lemma PersistAlone(sys: Sys, pid: nat, c: Choice, f: Fill) returns (n: nat)
    requires pid in sys.procs && sys.procs[pid].pc == OpenGuard(f, false) && sys.procs[pid].sig in sys.db.intents
    ensures var s := sys.procs[pid].sig; var end := Alone(sys, pid, c, n);
            RowOf(end.db, s) == PersistRow(RowOf(sys.db, s), f) && pid !in end.procs
  {
    var s := sys.procs[pid].sig;
    var one := Step(sys, Run(pid, c));
    AloneOnce(sys, pid, c);
    OpenDecides(sys, pid, c, f);
    n := 1;
    if StatusIn(RowOf(sys.db, s), Openable) {
      var m := ConfirmAlone(one, pid, c);
      AloneTwice(sys, pid, c, 1, m);
      n := 1 + m;
    }
  }

  /** tryRecoverExecutionIntentFromBroker, uninterrupted, does what TryRecoverRow says. */
  lemma TryRecoverAlone(sys: Sys, pid: nat, c: Choice, f: Fill) returns (n: nat)
    requires pid in sys.procs && sys.procs[pid].pc == MarkRead(Recovered, OpenNext(f, false))
             && sys.procs[pid].sig in sys.db.intents
    ensures var s := sys.procs[pid].sig; var end := Alone(sys, pid, c, n);
            RowOf(end.db, s) == TryRecoverRow(RowOf(sys.db, s), f) && pid !in end.procs
  {
    var m := MarkAlone(sys, pid, c, Recovered, OpenNext(f, false));
    var k := PersistAlone(Alone(sys, pid, c, m), pid, c, f);
    AloneTwice(sys, pid, c, m, k);
    n := m + k;
  }
}
