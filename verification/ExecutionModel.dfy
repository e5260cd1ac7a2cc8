/**
 The rows of the MT5 execution-intent protocol and the pure rules its helpers consult.

 A signal owns at most one Position and one ExecutionIntent; both carry the signal's idempotency
 key, so both tables are keyed by the signal.
 */
module ExecutionModel {
  import opened Wrappers

  datatype Signal = Signal(user: string, id: string)

  datatype Status = Pending | OpenRequested | Open | CloseRequested | Closed | Rejected

  datatype IntentState =
    | Created | Submitted | BrokerConfirmed | Ambiguous | Recovered | Persisted | IntentRejected

  /** The order parameters a position and its intent both store. */
  datatype Params = Params(volume: real, stopLoss: real, takeProfit: Option<real>)

  datatype Position = Position(engine: bool, status: Status, params: Params, ticket: Option<nat>)

  datatype Intent = Intent(
    state: IntentState, submitted: bool, createdAt: int, requested: Params, linked: bool)

  datatype Db = Db(positions: map<Signal, Position>, intents: map<Signal, Intent>)

  /** A broker position found or opened for a signal's idempotency comment. */
  datatype Fill = Fill(ticket: nat, volume: real)

  /** CREATED intents may be resumed for four hours, in milliseconds. */
  const RESUME_TTL_MS: int := 4 * 60 * 60 * 1000

  predicate Consumes(st: Status) {
    st.Pending? || st.Open? || st.OpenRequested? || st.CloseRequested?
  }

  predicate Terminal(st: Status) {
    st.Closed? || st.Rejected?
  }

  /** Statuses that may be reported as rejected, and the guard of the reject write. */
  predicate Rejectable(st: Status) {
    st.Pending? || st.OpenRequested?
  }

  /** The guard of the open write. */
  predicate Openable(st: Status) {
    st.Pending? || st.OpenRequested? || st.Open?
  }

  /** The guard of the close write. */
  predicate Closeable(st: Status) {
    st.Open? || st.Pending? || st.OpenRequested? || st.CloseRequested?
  }

  /** Statuses only a position that a broker fill reached, or that was closed, can have. */
  predicate Settled(st: Status) {
    st.Open? || st.CloseRequested? || st.Closed?
  }

  predicate TerminalIntent(s: IntentState) {
    s.Persisted? || s.IntentRejected?
  }

  predicate Unresolved(s: IntentState) {
    s.Created? || s.Submitted? || s.BrokerConfirmed? || s.Ambiguous? || s.Recovered?
  }

  predicate CanTransition(from: IntentState, to: IntentState) {
    from == to ||
    match from
    case Created => to.Submitted? || to.IntentRejected?
    case Submitted => to.BrokerConfirmed? || to.Persisted? || to.IntentRejected? || to.Ambiguous? || to.Recovered?
    case BrokerConfirmed => to.Persisted? || to.Recovered?
    case Ambiguous => to.Recovered? || to.Persisted? || to.IntentRejected?
    case Recovered => to.Persisted?
    case Persisted => false
    case IntentRejected => false
  }

  predicate ReservationAllowed(consumedBefore: nat, maxConcurrent: int) {
    maxConcurrent > 0 && consumedBefore < maxConcurrent
  }

  predicate Expired(createdAt: int, now: int) {
    now - createdAt > RESUME_TTL_MS
  }

  /** What the duplicate gate decides from the two rows it read. */
  datatype Gate = Block | Resume | Proceed

  function DuplicateGate(intent: Option<Intent>, status: Option<Status>): Gate {
    if status == Some(Open) then Block
    else if intent.None? then Proceed
    else if intent.value.state.Created? && !intent.value.submitted && status == Some(Pending) then Resume
    else if TerminalIntent(intent.value.state) then Block
    else if Unresolved(intent.value.state) then Block
    else Proceed
  }

  /** Whether signal s occupies one of its user's capacity slots. */
  predicate Holds(db: Db, s: Signal) {
    s in db.positions && db.positions[s].engine && Consumes(db.positions[s].status)
  }

  function Slots(db: Db, user: string): set<Signal> {
    set s | s in db.positions && s.user == user && Holds(db, s)
  }

  function Consumed(db: Db, user: string): nat {
    |Slots(db, user)|
  }

  function StatusOf(db: Db, s: Signal): Option<Status> {
    if s in db.positions then Some(db.positions[s].status) else None
  }

  function IntentOf(db: Db, s: Signal): Option<Intent> {
    if s in db.intents then Some(db.intents[s]) else None
  }

  // ----- the single writes -----

  function SetStatus(db: Db, s: Signal, st: Status): Db
    requires s in db.positions
  {
    db.(positions := db.positions[s := db.positions[s].(status := st)])
  }

  function SetState(db: Db, s: Signal, st: IntentState): Db
    requires s in db.intents
  {
    var i := db.intents[s];
    db.(intents := db.intents[s := i.(state := st, submitted := i.submitted || st.Submitted?)])
  }

  /** The guarded write that opens a position from a broker fill. */
  function OpenPosition(db: Db, s: Signal, f: Fill): Db
    requires s in db.positions
  {
    var p := db.positions[s];
    db.(positions := db.positions[s := p.(status := Open, ticket := Some(f.ticket),
                                          params := p.params.(volume := f.volume))])
  }

  /** The transaction that rewrites both rows' order parameters. */
  function RefreshParams(db: Db, s: Signal, q: Params): Db
    requires s in db.positions && s in db.intents
  {
    Db(db.positions[s := db.positions[s].(params := q)], db.intents[s := db.intents[s].(requested := q)])
  }

  /** The insert that reserves a slot: a PENDING position and a CREATED intent with the same parameters. */
  function InsertPair(db: Db, s: Signal, q: Params, now: int): Db {
    Db(db.positions[s := Position(true, Pending, q, None)],
       db.intents[s := Intent(Created, false, now, q, true)])
  }
}
