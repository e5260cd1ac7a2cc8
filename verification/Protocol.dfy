/**
 The execution-intent protocol as a small-step system.

 Every worker activity (an execution attempt, a recovery iteration, a sweep iteration, a close, ...)
 is a process that works on one signal. One step of a process is one database read, one database
 write, or one broker call; what it read stays in its program counter and may be stale by the time
 it writes. A run is any sequence of spawns, steps and crashes.
 */
module Protocol {
  import opened Wrappers
  import opened ExecutionModel

  /** What a call to the broker's open operation reports. */
  datatype Outcome = Accepted(fill: Fill) | Unclear | Refused(invalidStops: bool)

  /** Who asked the broker whether it already holds a position for the signal. */
  datatype AdoptCaller =
    | GateBlocked
    | AmbiguousReply
    | RefusedReply(attempt: nat, invalidStops: bool)
    | Pass(seen: Intent)
    | Sweep

  /** What a mark helper returns to. */
  datatype After = Stop | QueryNext | OpenNext(fill: Fill, late: bool) | PersistNext(late: bool) | LateNext

  datatype Pc =
    // executeCfdSignal
    | GatePosition(limit: int, params: Params)
    | GateIntent(limit: int, params: Params, status: Option<Status>)
    | ResumeCheck
    | Lock(limit: int, params: Params)
    | ReserveRead(limit: int, params: Params)
    | ReserveInsert(limit: int, params: Params, consumed: nat)
    | PreSubmit(attempt: nat)
    | Refresh(attempt: nat, params: Params)
    | LiveGate
    | SubmitRead(attempt: nat)
    | SubmitWrite(attempt: nat)
    | Send(attempt: nat)
    | Order(attempt: nat)
    | Reply(attempt: nat, outcome: Outcome)
    // shared helpers
    | Adopt(caller: AdoptCaller)
    | MarkRead(to: IntentState, after: After)
    | MarkWrite(to: IntentState, after: After)
    | OpenGuard(fill: Fill, late: bool)
    | ConfirmCheck(late: bool)
    | LateRead
    | LateWrite
    | FailRead
    | FailGuard
    | CloseRead
    | CloseGuard
    // startup recovery, expiry sweep, stop changes
    | PassSnapshot
    | PassPosition(seen: Intent)
    | ForceWrite(to: IntentState)
    | LegacyRead
    | LegacyWrite(fill: Fill)
    | SweepSnapshot
    | SweepPosition
    | SweepSync
    | ModifyRead
    | ModifyWrite(params: Params)
    | ReconcileStops(params: Params)

  /** sweep marks the iterations of the expiry sweep. */
  datatype Proc = Proc(sig: Signal, attempt: bool, pc: Pc, sweep: bool := false)

  datatype Sys = Sys(db: Db, procs: map<nat, Proc>, locks: map<string, nat>, sends: map<Signal, nat>,
      fills: map<Signal, nat>)

  /** What the environment decides at one step. */
  datatype Choice = Choice(ok: bool, safe: bool, fill: Fill, outcome: Outcome, filled: bool, params: Params, now: int)

  datatype Job = Attempt(limit: int, params: Params) | Recovery | LegacyRecovery | Expiry | Close | Modify
      | Reconcile(params: Params)

  datatype Event = Spawn(pid: nat, sig: Signal, job: Job) | Crash(pid: nat) | Run(pid: nat, choice: Choice)

  /** Invalid-stops rejections are resubmitted at most once. */
  const MAX_RESUBMITS: nat := 1

  function Tally(m: map<Signal, nat>, s: Signal): nat {
    if s in m then m[s] else 0
  }

  function Entry(job: Job): Pc {
    match job
    case Attempt(limit, params) => GatePosition(limit, params)
    case Recovery => PassSnapshot
    case LegacyRecovery => LegacyRead
    case Expiry => SweepSnapshot
    case Close => CloseRead
    case Modify => ModifyRead
    case Reconcile(params) => ReconcileStops(params)
  }

  function ResumeAt(after: After): Option<Pc> {
    match after
    case Stop => None
    case QueryNext => Some(Adopt(AmbiguousReply))
    case OpenNext(f, late) => Some(OpenGuard(f, late))
    case PersistNext(late) => Some(MarkRead(Persisted, if late then LateNext else Stop))
    case LateNext => Some(LateRead)
  }

  /** The broker only reports a position for a signal if some send filled. */
  predicate Found(sys: Sys, s: Signal, c: Choice) {
    c.ok && Tally(sys.fills, s) > 0
  }

  function FromAdopt(sys: Sys, s: Signal, caller: AdoptCaller, c: Choice): Option<Pc> {
    if Found(sys, s, c) then
      if caller.RefusedReply? then Some(OpenGuard(c.fill, false))
      else Some(MarkRead(Recovered, OpenNext(c.fill, caller.Pass? && caller.seen.state.Recovered?)))
    else
      match caller
      case GateBlocked => None
      case AmbiguousReply => None
      case RefusedReply(n, invalidStops) =>
        if invalidStops && n < MAX_RESUBMITS then Some(PreSubmit(n + 1)) else Some(FailRead)
      case Pass(seen) =>
        if seen.state.Created? && !seen.submitted && seen.requested.takeProfit.Some?
            && seen.requested.takeProfit.value > 0.0
           && (Expired(seen.createdAt, c.now) || !c.safe)
        then Some(FailRead) else None
      case Sweep => Some(FailRead)
  }

  /** Where a process goes after the step at its program counter; None when the activity is over. */
  function NextPc(sys: Sys, pid: nat, p: Proc, c: Choice): Option<Pc> {
    var db, s := sys.db, p.sig;
    match p.pc
    case GatePosition(limit, q) => Some(GateIntent(limit, q, StatusOf(db, s)))
    case GateIntent(limit, q, seen) =>
      (match DuplicateGate(IntentOf(db, s), seen)
       case Block => if seen == Some(Pending) && s in db.intents then Some(Adopt(GateBlocked)) else None
       case Resume => if c.ok then Some(ResumeCheck) else None
       case Proceed => if c.ok then Some(Lock(limit, q)) else None)
    case ResumeCheck => if c.ok then Some(LiveGate) else Some(FailRead)
    case Lock(limit, q) => if s.user in sys.locks then Some(p.pc) else Some(ReserveRead(limit, q))
    case ReserveRead(limit, q) =>
      if s in db.positions && s in db.intents then Some(PreSubmit(0))
      else if !ReservationAllowed(Consumed(db, s.user), limit) then None
      else Some(ReserveInsert(limit, q, Consumed(db, s.user)))
    case ReserveInsert(_, _, _) =>
      if (s in db.positions) == (s in db.intents) then Some(PreSubmit(0)) else None
    case PreSubmit(n) => if c.ok && c.params.takeProfit.Some? then Some(Refresh(n, c.params)) else Some(FailRead)
    case Refresh(n, _) => if n == 0 then Some(LiveGate) else Some(SubmitRead(n))
    case LiveGate => if c.ok then Some(SubmitRead(0)) else Some(FailRead)
    case SubmitRead(n) =>
      if s !in db.intents then None
      else if !CanTransition(db.intents[s].state, Submitted) || db.intents[s].state.Submitted? then Some(Send(n))
      else Some(SubmitWrite(n))
    case SubmitWrite(n) => Some(Send(n))
    case Send(n) =>
      // the adapter checks the request, then looks for a position with the signal's comment
      if !c.safe then Some(Reply(n, Refused(false)))
      else if Found(sys, s, c) then Some(Reply(n, Accepted(c.fill)))
      else Some(Order(n))
    case Order(n) => Some(Reply(n, c.outcome))
    case Reply(n, outcome) =>
      (match outcome
       case Accepted(f) => Some(OpenGuard(f, false))
       case Unclear => Some(MarkRead(Ambiguous, QueryNext))
       case Refused(invalidStops) => Some(Adopt(RefusedReply(n, invalidStops))))
    case Adopt(caller) => FromAdopt(sys, s, caller, c)
    case MarkRead(to, after) =>
      if s !in db.intents then None
      else if !CanTransition(db.intents[s].state, to) || db.intents[s].state == to then ResumeAt(after)
      else Some(MarkWrite(to, after))
    case MarkWrite(_, after) => ResumeAt(after)
    case OpenGuard(_, late) =>
      if s in db.positions && Openable(db.positions[s].status) then Some(ConfirmCheck(late))
      else if late then Some(LateRead) else None
    case ConfirmCheck(late) =>
      if s in db.intents && !db.intents[s].state.Recovered? && !db.intents[s].state.BrokerConfirmed?
      then Some(MarkRead(BrokerConfirmed, PersistNext(late)))
      else ResumeAt(PersistNext(late))
    case LateRead =>
      if s in db.intents && CanTransition(db.intents[s].state, Persisted) && !db.intents[s].state.Persisted?
      then Some(LateWrite) else None
    case LateWrite => None
    case FailRead => if s in db.positions && Rejectable(db.positions[s].status) then Some(FailGuard) else None
    case FailGuard => Some(MarkRead(IntentRejected, Stop))
    case CloseRead =>
      // the broker closes the position by its ticket before the local row is touched
      if s in db.positions && !db.positions[s].status.Closed? && db.positions[s].ticket.Some? && c.ok
      then Some(CloseGuard) else None
    case CloseGuard => None
    case PassSnapshot =>
      if s in db.intents && Unresolved(db.intents[s].state) && db.intents[s].linked
      then Some(PassPosition(db.intents[s])) else None
    case PassPosition(seen) =>
      if s !in db.positions then None
      else if db.positions[s].status.Open? && db.positions[s].ticket.Some? then Some(ForceWrite(Persisted))
      else if db.positions[s].status.Rejected? then Some(ForceWrite(IntentRejected))
      else if c.ok then Some(Adopt(Pass(seen))) else None
    case ForceWrite(_) => None
    case LegacyRead =>
      if s in db.positions && db.positions[s].status.Pending? && db.positions[s].engine && s !in db.intents
          && Found(sys, s, c)
      then Some(LegacyWrite(c.fill)) else None
    case LegacyWrite(_) => None
    case SweepSnapshot =>
      if s in db.intents && db.intents[s].state.Created? && !db.intents[s].submitted
         && Expired(db.intents[s].createdAt, c.now) && db.intents[s].linked
      then Some(SweepPosition) else None
    case SweepPosition =>
      if s !in db.positions || (db.positions[s].status.Open? && db.positions[s].ticket.Some?) then None
      else if Terminal(db.positions[s].status) then Some(SweepSync)
      else if Rejectable(db.positions[s].status) && c.ok then Some(Adopt(Sweep))
      else None
    case SweepSync => None
    case ModifyRead =>
      if s in db.positions && db.positions[s].status.Open? && db.positions[s].ticket.Some? && c.ok
      then Some(ModifyWrite(c.params)) else None
    case ModifyWrite(_) => None
    case ReconcileStops(_) => None
  }

  function SetStops(db: Db, s: Signal, q: Params): Db
    requires s in db.positions
  {
    var p := db.positions[s];
    db.(positions := db.positions[s := p.(params := p.params.(stopLoss := q.stopLoss, takeProfit := q.takeProfit))])
  }

  /** The rows after the step at program counter pc of a process on signal s. */
  function NextDb(db: Db, s: Signal, pc: Pc, c: Choice): Db {
    match pc
    case ReserveInsert(_, q, _) => if s in db.positions || s in db.intents then db else InsertPair(db, s, q, c.now)
    case Refresh(_, q) => if s in db.positions && s in db.intents then RefreshParams(db, s, q) else db
    case SubmitWrite(_) => if s in db.intents then SetState(db, s, Submitted) else db
    case MarkWrite(to, _) => if s in db.intents then SetState(db, s, to) else db
    case LateWrite => if s in db.intents then SetState(db, s, Persisted) else db
    case ForceWrite(to) => if s in db.intents then SetState(db, s, to) else db
    case SweepSync =>
      if s in db.intents && db.intents[s].state.Created? && !db.intents[s].submitted
      then SetState(db, s, IntentRejected) else db
    case OpenGuard(f, _) =>
      if s in db.positions && Openable(db.positions[s].status) then OpenPosition(db, s, f) else db
    case LegacyWrite(f) => if s in db.positions then OpenPosition(db, s, f) else db
    case FailGuard =>
      if s in db.positions && Rejectable(db.positions[s].status) then SetStatus(db, s, Rejected) else db
    case CloseGuard =>
      if s in db.positions && Closeable(db.positions[s].status) then SetStatus(db, s, Closed) else db
    case ModifyWrite(q) =>
      // without a take-profit the update leaves the stored one
      if s !in db.positions then db
      else SetStops(db, s, if q.takeProfit.Some? then q else q.(takeProfit := db.positions[s].params.takeProfit))
    case ReconcileStops(q) =>
      if s in db.positions && db.positions[s].ticket.Some? && Consumes(db.positions[s].status)
      then SetStops(db, s, q) else db
    case _ => db
  }

  /** The advisory lock is taken by the transaction's first statement and given back when it ends. */
  function NextLocks(sys: Sys, pid: nat, p: Proc, next: Option<Pc>): map<string, nat> {
    if p.pc.Lock? && p.sig.user !in sys.locks then sys.locks[p.sig.user := pid]
    else if (p.pc.ReserveRead? && (next.None? || !next.value.ReserveInsert?)) || p.pc.ReserveInsert?
    then sys.locks - {p.sig.user}
    else sys.locks
  }

  /** Whether an order leaves a broker position behind. An acceptance always has one behind it. */
  predicate Fills(sys: Sys, s: Signal, c: Choice) {
    match c.outcome
    case Accepted(_) => c.filled || Tally(sys.fills, s) == 0
    case Unclear => c.filled
    case Refused(invalidStops) => c.filled && !invalidStops
  }

  function Advance(sys: Sys, pid: nat, c: Choice): Sys
    requires pid in sys.procs
  {
    var p := sys.procs[pid];
    var next := NextPc(sys, pid, p, c);
    Sys(NextDb(sys.db, p.sig, p.pc, c),
        if next.Some? then sys.procs[pid := p.(pc := next.value)] else sys.procs - {pid},
        NextLocks(sys, pid, p, next),
        if p.pc.Order? then sys.sends[p.sig := Tally(sys.sends, p.sig) + 1] else sys.sends,
        if p.pc.Order? && Fills(sys, p.sig, c) then sys.fills[p.sig := Tally(sys.fills, p.sig) + 1] else sys.fills)
  }

  function Step(sys: Sys, e: Event): Sys {
    match e
    case Spawn(pid, s, job) =>
      if pid in sys.procs then sys else sys.(procs := sys.procs[pid := Proc(s, job.Attempt?, Entry(job), job.Expiry?)])
    case Crash(pid) =>
      if pid !in sys.procs then sys
      else sys.(procs := sys.procs - {pid}, locks := map u | u in sys.locks && sys.locks[u] != pid :: sys.locks[u])
    case Run(pid, c) => if pid in sys.procs then Advance(sys, pid, c) else sys
  }

  function Exec(sys: Sys, es: seq<Event>): Sys
    decreases |es|
  {
    if es == [] then sys else Exec(Step(sys, es[0]), es[1..])
  }

  /** The duplicate gate no longer lets an attempt through: the intent has left CREATED-and-unsubmitted. */
  predicate GateClosed(db: Db, s: Signal) {
    s in db.intents && !(db.intents[s].state.Created? && !db.intents[s].submitted)
  }

  /** What the two rows of one signal agree on whenever both exist. */
  predicate PairConsistent(db: Db, s: Signal) {
    s in db.positions && s in db.intents ==>
      var p, i := db.positions[s], db.intents[s];
      && (p.status.Pending? ==> p.params == i.requested && p.ticket.None?)
      && (i.state.Persisted? ==> Settled(p.status))
  }

  /** A CREATED intent was never submitted: no write takes one back. */
  predicate CreatedFresh(db: Db, s: Signal) {
    s in db.intents && db.intents[s].state.Created? ==> !db.intents[s].submitted
  }

  /** The broker's fills as the tables know them: at most one, and only for a signal that was submitted. */
  predicate FillsKnown(sys: Sys, s: Signal) {
    && Tally(sys.fills, s) <= 1
    && (Tally(sys.fills, s) > 0 ==> s in sys.db.positions && (s in sys.db.intents ==> GateClosed(sys.db, s)))
  }

  /** No worker is running and no lock is held; the tables may hold anything consistent. */
  ghost predicate Initial(sys: Sys) {
    && sys.procs == map[] && sys.locks == map[] && sys.sends == map[]
    && (forall s :: PairConsistent(sys.db, s))
    && (forall s :: CreatedFresh(sys.db, s))
    && (forall s :: FillsKnown(sys, s))
  }
}
