/**
 What an execution attempt does with the answers it gets, when nothing interferes: a fill it is told of is recorded, an
 order that cannot be filled is failed closed, an unclear one is left for recovery, and an attempt whose every check
 passes sends one order and ends with the position open.
 */
module Attempts {
  import opened Wrappers
  import opened ExecutionModel
  import opened Protocol
  import opened SingleSend
  import opened Overlap
  import opened Helpers
  import Iterations

  // ----- a helper alone neither sends nor touches other rows -----

  lemma OthersUntouched(db: Db, s: Signal, pc: Pc, c: Choice)
    ensures Untouched(db, NextDb(db, s, pc, c), s)
  {
    forall t | t != s ensures RowOf(NextDb(db, s, pc, c), t) == RowOf(db, t) {
      Iterations.OthersRows(db, s, pc, c, t);
    }
  }

  lemma QuietStep(sys: Sys, pid: nat, c: Choice)
    requires pid in sys.procs && !SendingPath(sys.procs[pid].pc)
    ensures var s, end := sys.procs[pid].sig, Step(sys, Run(pid, c));
            && end.sends == sys.sends && end.fills == sys.fills && end.locks == sys.locks
            && Untouched(sys.db, end.db, s)
            && (pid in end.procs ==> end.procs[pid].sig == s && !SendingPath(end.procs[pid].pc))
  {
    var p := sys.procs[pid];
    OthersUntouched(sys.db, p.sig, p.pc, c);
    if NextPc(sys, pid, p, c).Some? {
      HelperStep(sys, pid, p, c);
    }
  }

  lemma IdleAlone(sys: Sys, pid: nat, c: Choice, n: nat)
    requires pid !in sys.procs
    ensures Alone(sys, pid, c, n) == sys
  {
  }

  lemma {:induction false} QuietAlone(sys: Sys, pid: nat, c: Choice, n: nat, s: Signal)
    requires pid in sys.procs && sys.procs[pid].sig == s && !SendingPath(sys.procs[pid].pc)
    ensures var end := Alone(sys, pid, c, n);
            && end.sends == sys.sends && end.fills == sys.fills && end.locks == sys.locks
            && Untouched(sys.db, end.db, s)
    decreases n
  {
    if n > 0 {
      var one := Step(sys, Run(pid, c));
      QuietStep(sys, pid, c);
      if pid in one.procs {
        QuietAlone(one, pid, c, n - 1, s);
      } else {
        IdleAlone(one, pid, c, n - 1);
      }
    }
  }

  /** The activity of pid is over after n steps alone; nothing was sent, and other signals' rows are as they were. */
  ghost predicate Over(sys: Sys, pid: nat, c: Choice, n: nat, s: Signal) {
    var end := Alone(sys, pid, c, n);
    && pid !in end.procs && end.sends == sys.sends && end.fills == sys.fills && end.locks == sys.locks
    && Untouched(sys.db, end.db, s)
  }

  /** One step that changes no row and sends nothing. */
  predicate Reads(sys: Sys, one: Sys, pid: nat, c: Choice, pc: Pc) {
    && pid in sys.procs && one == Step(sys, Run(pid, c)) && one.db == sys.db
    && one.sends == sys.sends && one.fills == sys.fills && one.locks == sys.locks
    && pid in one.procs && one.procs[pid] == sys.procs[pid].(pc := pc)
  }

  // ----- a fill is recorded -----

  /** The position is open with the fill's ticket and volume; its intent is PERSISTED unless it was never submitted or
      already REJECTED. */
  predicate Recorded(before: Row, after: Row, f: Fill) {
    && before.position.Some? && before.intent.Some? && after.position.Some? && after.intent.Some?
    && var p, q, i, j := before.position.value, after.position.value, before.intent.value, after.intent.value;
       && q.status.Open? && q.ticket == Some(f.ticket) && q.params.volume == f.volume
       && q.params.stopLoss == p.params.stopLoss && q.params.takeProfit == p.params.takeProfit && q.engine == p.engine
       && (j.state.Persisted? <==> !i.state.Created? && !i.state.IntentRejected?)
       && j.requested == i.requested && j.createdAt == i.createdAt && j.linked == i.linked
  }

  lemma PersistRecords(r: Row, f: Fill)
    requires StatusIn(r, Openable) && r.intent.Some?
    ensures Recorded(r, PersistRow(r, f), f)
  {
  }

  lemma RecoverRecords(r: Row, f: Fill)
    requires StatusIn(r, Openable) && r.intent.Some?
    ensures Recorded(r, TryRecoverRow(r, f), f)
  {
  }

  lemma UnclearRecords(r: Row, f: Fill)
    requires StatusIn(r, Openable) && r.intent.Some?
    ensures Recorded(r, TryRecoverRow(MarkRow(r, Ambiguous), f), f)
  {
  }

  ghost predicate Records(sys: Sys, pid: nat, c: Choice, n: nat, s: Signal, f: Fill) {
    Over(sys, pid, c, n, s) && Recorded(RowOf(sys.db, s), RowOf(Alone(sys, pid, c, n).db, s), f)
  }

  lemma RecordsLater(sys: Sys, one: Sys, pid: nat, c: Choice, pc: Pc, n: nat, s: Signal, f: Fill)
    requires Reads(sys, one, pid, c, pc) && Records(one, pid, c, n, s, f)
    ensures Records(sys, pid, c, 1 + n, s, f)
  {
    AloneOnce(sys, pid, c);
    AloneTwice(sys, pid, c, 1, n);
  }

  /** Both rows are there and the position can still be opened. */
  predicate Fillable(db: Db, s: Signal) {
    s in db.positions && s in db.intents && Openable(db.positions[s].status)
  }

  lemma OpenRecords(sys: Sys, pid: nat, c: Choice, f: Fill) returns (n: nat)
    requires pid in sys.procs && sys.procs[pid].pc == OpenGuard(f, false) && Fillable(sys.db, sys.procs[pid].sig)
    ensures Records(sys, pid, c, n, sys.procs[pid].sig, f)
  {
    var s := sys.procs[pid].sig;
    n := PersistAlone(sys, pid, c, f);
    PersistRecords(RowOf(sys.db, s), f);
    QuietAlone(sys, pid, c, n, s);
  }

  lemma MatchRecords(sys: Sys, pid: nat, c: Choice, f: Fill) returns (n: nat)
    requires pid in sys.procs && sys.procs[pid].pc == MarkRead(Recovered, OpenNext(f, false))
    requires Fillable(sys.db, sys.procs[pid].sig)
    ensures Records(sys, pid, c, n, sys.procs[pid].sig, f)
  {
    var s := sys.procs[pid].sig;
    n := TryRecoverAlone(sys, pid, c, f);
    RecoverRecords(RowOf(sys.db, s), f);
    QuietAlone(sys, pid, c, n, s);
  }

  /** An attempt's own broker query, at its gate or after a reply. */
  predicate OwnQuery(caller: AdoptCaller) {
    caller.GateBlocked? || caller.AmbiguousReply? || caller.RefusedReply?
  }

  lemma QueryReads(sys: Sys, pid: nat, c: Choice, caller: AdoptCaller, one: Sys)
    requires pid in sys.procs && sys.procs[pid].pc == Adopt(caller) && OwnQuery(caller)
    requires Found(sys, sys.procs[pid].sig, c) && one == Step(sys, Run(pid, c))
    ensures Reads(sys, one, pid, c, if caller.RefusedReply? then OpenGuard(c.fill, false)
                                    else MarkRead(Recovered, OpenNext(c.fill, false)))
  {
  }

  lemma QueryRecords(sys: Sys, pid: nat, c: Choice, caller: AdoptCaller) returns (n: nat)
    requires pid in sys.procs && sys.procs[pid].pc == Adopt(caller) && OwnQuery(caller)
    requires Found(sys, sys.procs[pid].sig, c) && Fillable(sys.db, sys.procs[pid].sig)
    ensures Records(sys, pid, c, n, sys.procs[pid].sig, c.fill)
  {
    var one := Step(sys, Run(pid, c));
    QueryReads(sys, pid, c, caller, one);
    if caller.RefusedReply? {
      n := OpenRecords(one, pid, c, c.fill);
    } else {
      n := MatchRecords(one, pid, c, c.fill);
    }
    RecordsLater(sys, one, pid, c, one.procs[pid].pc, n, sys.procs[pid].sig, c.fill);
    n := 1 + n;
  }

  lemma ReplyReads(sys: Sys, pid: nat, c: Choice, k: nat, outcome: Outcome, one: Sys)
    requires pid in sys.procs && sys.procs[pid].pc == Reply(k, outcome) && one == Step(sys, Run(pid, c))
    ensures Reads(sys, one, pid, c, match outcome
                                    case Accepted(f) => OpenGuard(f, false)
                                    case Unclear => MarkRead(Ambiguous, QueryNext)
                                    case Refused(b) => Adopt(RefusedReply(k, b)))
  {
  }

  /** After an unclear reply: the intent is marked AMBIGUOUS, then the broker is asked. */
  lemma MarksAmbiguous(sys: Sys, pid: nat, c: Choice) returns (n: nat)
    requires pid in sys.procs && sys.procs[pid].pc == MarkRead(Ambiguous, QueryNext)
             && sys.procs[pid].sig in sys.db.intents
    ensures var p := sys.procs[pid]; var mid := Alone(sys, pid, c, n);
            && RowOf(mid.db, p.sig) == MarkRow(RowOf(sys.db, p.sig), Ambiguous) && p.sig in mid.db.intents
            && pid in mid.procs && mid.procs[pid] == p.(pc := Adopt(AmbiguousReply))
            && mid.fills == sys.fills
  {
    var s := sys.procs[pid].sig;
    n := MarkAlone(sys, pid, c, Ambiguous, QueryNext);
    QuietAlone(sys, pid, c, n, s);
    assert RowOf(Alone(sys, pid, c, n).db, s).intent.Some?;
  }

  lemma AmbiguousMatches(sys: Sys, pid: nat, c: Choice) returns (n: nat)
    requires pid in sys.procs && sys.procs[pid].pc == Adopt(AmbiguousReply) && sys.procs[pid].sig in sys.db.intents
    requires Found(sys, sys.procs[pid].sig, c)
    ensures var s := sys.procs[pid].sig; var end := Alone(sys, pid, c, n);
            RowOf(end.db, s) == TryRecoverRow(RowOf(sys.db, s), c.fill) && pid !in end.procs
  {
    var one := Step(sys, Run(pid, c));
    QueryReads(sys, pid, c, AmbiguousReply, one);
    var k := TryRecoverAlone(one, pid, c, c.fill);
    AloneOnce(sys, pid, c);
    AloneTwice(sys, pid, c, 1, k);
    n := 1 + k;
  }

  lemma UnclearAlone(sys: Sys, pid: nat, c: Choice) returns (n: nat)
    requires pid in sys.procs && sys.procs[pid].pc == MarkRead(Ambiguous, QueryNext)
             && sys.procs[pid].sig in sys.db.intents && Found(sys, sys.procs[pid].sig, c)
    ensures var s := sys.procs[pid].sig; var end := Alone(sys, pid, c, n);
            RowOf(end.db, s) == TryRecoverRow(MarkRow(RowOf(sys.db, s), Ambiguous), c.fill) && pid !in end.procs
  {
    var m := MarksAmbiguous(sys, pid, c);
    var k := AmbiguousMatches(Alone(sys, pid, c, m), pid, c);
    AloneTwice(sys, pid, c, m, k);
    n := m + k;
  }

  lemma UnclearIsRecorded(sys: Sys, pid: nat, c: Choice) returns (n: nat)
    requires pid in sys.procs && sys.procs[pid].pc == MarkRead(Ambiguous, QueryNext)
    requires Found(sys, sys.procs[pid].sig, c) && Fillable(sys.db, sys.procs[pid].sig)
    ensures Records(sys, pid, c, n, sys.procs[pid].sig, c.fill)
  {
    var s := sys.procs[pid].sig;
    n := UnclearAlone(sys, pid, c);
    UnclearRecords(RowOf(sys.db, s), c.fill);
    QuietAlone(sys, pid, c, n, s);
  }

  /** What the reply says, or what the lookup after it finds. */
  predicate Replied(sys: Sys, s: Signal, c: Choice, outcome: Outcome, f: Fill) {
    if outcome.Accepted? then f == outcome.fill else Found(sys, s, c) && f == c.fill
  }

  lemma ReplyRecords(sys: Sys, pid: nat, c: Choice, k: nat, outcome: Outcome, f: Fill) returns (n: nat)
    requires pid in sys.procs && sys.procs[pid].pc == Reply(k, outcome) && Fillable(sys.db, sys.procs[pid].sig)
    requires Replied(sys, sys.procs[pid].sig, c, outcome, f)
    ensures Records(sys, pid, c, n, sys.procs[pid].sig, f)
  {
    var one := Step(sys, Run(pid, c));
    ReplyReads(sys, pid, c, k, outcome, one);
    match outcome {
      case Accepted(_) => n := OpenRecords(one, pid, c, f);
      case Unclear => n := UnclearIsRecorded(one, pid, c);
      case Refused(b) => n := QueryRecords(one, pid, c, RefusedReply(k, b));
    }
    RecordsLater(sys, one, pid, c, one.procs[pid].pc, n, sys.procs[pid].sig, f);
    n := 1 + n;
  }

  lemma LookupReads(sys: Sys, pid: nat, c: Choice, k: nat, one: Sys)
    requires pid in sys.procs && sys.procs[pid].pc == Send(k) && c.safe && Found(sys, sys.procs[pid].sig, c)
    requires one == Step(sys, Run(pid, c))
    ensures Reads(sys, one, pid, c, Reply(k, Accepted(c.fill)))
  {
  }

  /** The adapter's lookup finds a position before ordering: it is recorded and nothing is sent. */
  lemma LookupRecords(sys: Sys, pid: nat, c: Choice, k: nat) returns (n: nat)
    requires pid in sys.procs && sys.procs[pid].pc == Send(k) && c.safe && Found(sys, sys.procs[pid].sig, c)
    requires Fillable(sys.db, sys.procs[pid].sig)
    ensures Records(sys, pid, c, n, sys.procs[pid].sig, c.fill)
  {
    var one := Step(sys, Run(pid, c));
    LookupReads(sys, pid, c, k, one);
    n := ReplyRecords(one, pid, c, k, Accepted(c.fill), c.fill);
    RecordsLater(sys, one, pid, c, one.procs[pid].pc, n, sys.procs[pid].sig, c.fill);
    n := 1 + n;
  }

  /** The gate blocks an attempt on a waiting position whose intent is past resuming. */
  predicate BlockedWaiting(sys: Sys, s: Signal, seen: Option<Status>) {
    seen == Some(Pending) && s in sys.db.intents && !(sys.db.intents[s].state.Created? && !sys.db.intents[s].submitted)
  }

  lemma GateReads(sys: Sys, pid: nat, c: Choice, limit: int, q: Params, seen: Option<Status>, one: Sys)
    requires pid in sys.procs && sys.procs[pid].pc == GateIntent(limit, q, seen) && one == Step(sys, Run(pid, c))
    requires BlockedWaiting(sys, sys.procs[pid].sig, seen)
    ensures Reads(sys, one, pid, c, Adopt(GateBlocked))
  {
  }

  lemma GateRecords(sys: Sys, pid: nat, c: Choice, limit: int, q: Params, seen: Option<Status>) returns (n: nat)
    requires pid in sys.procs && sys.procs[pid].pc == GateIntent(limit, q, seen)
    requires BlockedWaiting(sys, sys.procs[pid].sig, seen)
    requires Found(sys, sys.procs[pid].sig, c) && Fillable(sys.db, sys.procs[pid].sig)
    ensures Records(sys, pid, c, n, sys.procs[pid].sig, c.fill)
  {
    var one := Step(sys, Run(pid, c));
    GateReads(sys, pid, c, limit, q, seen, one);
    n := QueryRecords(one, pid, c, GateBlocked);
    RecordsLater(sys, one, pid, c, one.procs[pid].pc, n, sys.procs[pid].sig, c.fill);
    n := 1 + n;
  }

  /** The process is told of the fill f: by the broker's acceptance, by the adapter's lookup before the order, by the
      lookup after an unclear reply or a refusal, or by the lookup at a blocked gate. */
  predicate Told(sys: Sys, s: Signal, pc: Pc, c: Choice, f: Fill) {
    match pc
    case Reply(_, outcome) => Replied(sys, s, c, outcome, f)
    case Adopt(caller) => OwnQuery(caller) && Found(sys, s, c) && f == c.fill
    case Send(_) => c.safe && Found(sys, s, c) && f == c.fill
    case GateIntent(_, _, seen) => BlockedWaiting(sys, s, seen) && Found(sys, s, c) && f == c.fill
    case _ => false
  }

  /** An attempt that is told of a fill, uninterrupted, opens the position with the fill's ticket and volume and ends
      with its intent PERSISTED, unless that was never submitted or already REJECTED; it sends nothing more. */
  lemma FillIsRecorded(sys: Sys, pid: nat, c: Choice, f: Fill) returns (n: nat)
    requires pid in sys.procs && Told(sys, sys.procs[pid].sig, sys.procs[pid].pc, c, f)
    requires Fillable(sys.db, sys.procs[pid].sig)
    ensures Records(sys, pid, c, n, sys.procs[pid].sig, f)
  {
    match sys.procs[pid].pc {
      case Reply(k, outcome) => n := ReplyRecords(sys, pid, c, k, outcome, f);
      case Adopt(caller) => n := QueryRecords(sys, pid, c, caller);
      case Send(k) => n := LookupRecords(sys, pid, c, k);
      case GateIntent(limit, q, seen) => n := GateRecords(sys, pid, c, limit, q, seen);
    }
  }

  // ----- an order that cannot be filled is failed closed -----

  /** A waiting position is rejected and gives its slot back; its intent is rejected with it when it was created,
      submitted or ambiguous. Any other row stays. */
  predicate Abandoned(before: Row, after: Row) {
    before.position.Some? && before.intent.Some?
    && var p, i := before.position.value, before.intent.value;
       if p.status.Pending? || p.status.OpenRequested? then
         && after.position == Some(p.(status := Rejected)) && after.intent.Some?
         && (after.intent.value.state.IntentRejected?
             <==> i.state.Created? || i.state.Submitted? || i.state.Ambiguous? || i.state.IntentRejected?)
         && (!after.intent.value.state.IntentRejected? ==> after.intent == before.intent)
       else after == before
  }

  lemma FailAbandons(r: Row)
    requires r.position.Some? && r.intent.Some?
    ensures Abandoned(r, FailRow(r))
  {
  }

  ghost predicate Abandons(sys: Sys, pid: nat, c: Choice, n: nat, s: Signal) {
    Over(sys, pid, c, n, s) && Abandoned(RowOf(sys.db, s), RowOf(Alone(sys, pid, c, n).db, s))
  }

  lemma AbandonsLater(sys: Sys, one: Sys, pid: nat, c: Choice, pc: Pc, n: nat, s: Signal)
    requires Reads(sys, one, pid, c, pc) && Abandons(one, pid, c, n, s)
    ensures Abandons(sys, pid, c, 1 + n, s)
  {
    AloneOnce(sys, pid, c);
    AloneTwice(sys, pid, c, 1, n);
  }

  predicate BothThere(db: Db, s: Signal) {
    s in db.positions && s in db.intents
  }

  lemma FailReadAbandons(sys: Sys, pid: nat, c: Choice) returns (n: nat)
    requires pid in sys.procs && sys.procs[pid].pc == FailRead && BothThere(sys.db, sys.procs[pid].sig)
    ensures Abandons(sys, pid, c, n, sys.procs[pid].sig)
  {
    var s := sys.procs[pid].sig;
    n := FailClosedAlone(sys, pid, c);
    FailAbandons(RowOf(sys.db, s));
    QuietAlone(sys, pid, c, n, s);
  }

  /** A check fails, or the broker refuses the k-th order, holds no position for the signal, and the order is not to be
      sent again: only a first order refused for its stops is. */
  predicate Unfillable(sys: Sys, s: Signal, pc: Pc, c: Choice) {
    match pc
    case ResumeCheck => !c.ok
    case PreSubmit(_) => !c.ok || c.params.takeProfit.None?
    case LiveGate => !c.ok
    case Send(_) => !c.safe && !Found(sys, s, c)
    case Reply(k, outcome) => outcome.Refused? && !Found(sys, s, c) && (outcome.invalidStops ==> k >= 1)
    case Adopt(caller) => caller.RefusedReply? && !Found(sys, s, c) && (caller.invalidStops ==> caller.attempt >= 1)
    case _ => false
  }

  /** Steps it takes to reach the failing helper. */
  function Distance(pc: Pc): nat {
    match pc
    case Send(_) => 3
    case Reply(_, _) => 2
    case _ => 1
  }

  lemma UnfillableReads(sys: Sys, pid: nat, c: Choice, one: Sys)
    requires pid in sys.procs && Unfillable(sys, sys.procs[pid].sig, sys.procs[pid].pc, c)
    requires one == Step(sys, Run(pid, c))
    ensures pid in one.procs && Reads(sys, one, pid, c, one.procs[pid].pc)
    ensures if Distance(sys.procs[pid].pc) == 1 then one.procs[pid].pc == FailRead
            else && Unfillable(one, one.procs[pid].sig, one.procs[pid].pc, c)
                 && Distance(one.procs[pid].pc) < Distance(sys.procs[pid].pc)
  {
  }

  /** An attempt that fails a check, or whose order is refused for good, ends, uninterrupted, with its waiting pair
      failed closed and nothing sent. */
  lemma {:induction false} FailureIsClosed(sys: Sys, pid: nat, c: Choice) returns (n: nat)
    requires pid in sys.procs && Unfillable(sys, sys.procs[pid].sig, sys.procs[pid].pc, c)
    requires BothThere(sys.db, sys.procs[pid].sig)
    ensures Abandons(sys, pid, c, n, sys.procs[pid].sig)
    decreases Distance(sys.procs[pid].pc)
  {
    var one := Step(sys, Run(pid, c));
    UnfillableReads(sys, pid, c, one);
    if Distance(sys.procs[pid].pc) == 1 {
      n := FailReadAbandons(one, pid, c);
    } else {
      n := FailureIsClosed(one, pid, c);
    }
    AbandonsLater(sys, one, pid, c, one.procs[pid].pc, n, sys.procs[pid].sig);
    n := 1 + n;
  }

  /** A first order refused for its stops, without a position at the broker, is recomputed and sent once more. */
  lemma StopsAreRetried(sys: Sys, pid: nat, c: Choice, k: nat, invalidStops: bool)
    requires pid in sys.procs && sys.procs[pid].pc == Adopt(RefusedReply(k, invalidStops))
    requires !Found(sys, sys.procs[pid].sig, c)
    ensures var one := Step(sys, Run(pid, c));
            && one.db == sys.db && pid in one.procs
            && (one.procs[pid].pc == PreSubmit(1) <==> invalidStops && k == 0)
  {
  }

  // ----- an unclear reply without a match is left for recovery -----

  lemma QueryEnds(sys: Sys, pid: nat, c: Choice, caller: AdoptCaller)
    requires pid in sys.procs && sys.procs[pid].pc == Adopt(caller) && (caller.AmbiguousReply? || caller.GateBlocked?)
    requires !Found(sys, sys.procs[pid].sig, c)
    ensures Step(sys, Run(pid, c)) == sys.(procs := sys.procs - {pid})
  {
  }

  /** The position keeps waiting, and a SUBMITTED intent is AMBIGUOUS. */
  lemma UnclearIsLeft(sys: Sys, pid: nat, c: Choice) returns (n: nat)
    requires pid in sys.procs && sys.procs[pid].pc == MarkRead(Ambiguous, QueryNext)
             && sys.procs[pid].sig in sys.db.intents && !Found(sys, sys.procs[pid].sig, c)
    ensures var s := sys.procs[pid].sig; var r, after := RowOf(sys.db, s), RowOf(Alone(sys, pid, c, n).db, s);
            && Over(sys, pid, c, n, s)
            && after.position == r.position && after.intent.Some?
            && (r.intent.value.state.Submitted? ==> after.intent.value.state.Ambiguous?)
            && (!r.intent.value.state.Submitted? ==> after == r)
  {
    var s := sys.procs[pid].sig;
    var m := MarksAmbiguous(sys, pid, c);
    var mid := Alone(sys, pid, c, m);
    QueryEnds(mid, pid, c, AmbiguousReply);
    AloneOnce(mid, pid, c);
    AloneTwice(sys, pid, c, m, 1);
    n := m + 1;
    QuietAlone(sys, pid, c, n, s);
  }
}
