/**
 The position and intent tables as the worker's helpers update them in place, one call at a time.
 Each method is proved against what Helpers says about the two rows of its signal.
 */
module Integrity {
  import opened Wrappers
  import opened ExecutionModel
  import opened Helpers

  /** What a create call reports. */
  datatype Reservation = Reserved(consumedBefore: nat, consumedAfter: nat) | CapacityBlocked(consumed: nat)

  /** The broker's answers about one signal while it is being recovered or swept. */
  datatype View = View(quoted: bool, adopt: Option<Fill>, safe: bool)

  datatype StartupResolution = AwaitingResume | ExpiredIntent | StaleIntent

  /** extractFrozenExecutionParams throws without a positive take-profit. */
  predicate FrozenUsable(i: Intent) {
    i.requested.takeProfit.Some? && i.requested.takeProfit.value > 0.0
  }

  class Store {
    var positions: map<Signal, Position>
    var intents: map<Signal, Intent>

    constructor (db: Db)
      ensures Rows() == db
    {
      positions, intents := db.positions, db.intents;
    }

    function Rows(): Db
      reads this
    {
      Db(positions, intents)
    }

    /** countMt5ConsumedCapacitySlots */
    method CountConsumed(user: string) returns (n: nat)
      ensures n == Consumed(Rows(), user)
    {
      n := |set s | s in positions && s.user == user && positions[s].engine && Consumes(positions[s].status)|;
      assert (set s | s in positions && s.user == user && positions[s].engine && Consumes(positions[s].status))
             == Slots(Rows(), user);
    }

    /** createPendingPositionWithExecutionIntent: the whole locked transaction, and its unique-conflict fallback. */
    method CreatePending(s: Signal, q: Params, maxConcurrent: int, now: int) returns (r: Result<Reservation>)
      modifies this
      ensures var a := old(Rows());
              && (r.Throws? <==>
                    (s in a.positions) != (s in a.intents) && ReservationAllowed(Consumed(a, s.user), maxConcurrent))
              && (r.Ok? && r.value.Reserved? ==> s in Rows().positions && s in Rows().intents)
              && (r.Ok? && r.value.CapacityBlocked? ==> !ReservationAllowed(Consumed(a, s.user), maxConcurrent))
              && Rows() == (if s !in a.positions && s !in a.intents
                               && ReservationAllowed(Consumed(a, s.user), maxConcurrent)
                            then InsertPair(a, s, q, now) else a)
      ensures r.Ok? && r.value.Reserved? ==>
                r.value.consumedBefore == old(Consumed(Rows(), s.user))
                    && r.value.consumedAfter == Consumed(Rows(), s.user)
      ensures Consumed(Rows(), s.user) > old(Consumed(Rows(), s.user)) ==> Consumed(Rows(), s.user) <= maxConcurrent
    {
      var consumed := CountConsumed(s.user);
      if s in positions && s in intents {
        return Ok(Reserved(consumed, consumed));
      }
      if !ReservationAllowed(consumed, maxConcurrent) {
        return Ok(CapacityBlocked(consumed));
      }
      if s in positions || s in intents {
        return Throws("unique constraint");
      }
      ghost var a := Rows();
      positions := positions[s := Position(true, Pending, q, None)];
      intents := intents[s := Intent(Created, false, now, q, true)];
      assert Slots(Rows(), s.user) == Slots(a, s.user) + {s};
      return Ok(Reserved(consumed, consumed + 1));
    }

    /** The six markExecutionIntentX helpers: read, consult the transition table, write. */
    method Mark(s: Signal, to: IntentState) returns (found: bool)
      modifies this
      ensures found == old(s in intents)
      ensures RowOf(Rows(), s) == MarkRow(old(RowOf(Rows(), s)), to) && Untouched(old(Rows()), Rows(), s)
    {
      if s !in intents {
        return false;
      }
      var current := intents[s];
      if CanTransition(current.state, to) && current.state != to {
        intents := intents[s := current.(state := to, submitted := current.submitted || to.Submitted?)];
      }
      return true;
    }

    /** refreshPendingExecutionParams; a missing row makes the transaction throw. */
    method Refresh(s: Signal, q: Params) returns (ok: bool)
      modifies this
      ensures ok == old(s in positions && s in intents)
      ensures Rows() == if ok then RefreshParams(old(Rows()), s, q) else old(Rows())
    {
      if s !in positions || s !in intents {
        return false;
      }
      positions := positions[s := positions[s].(params := q)];
      intents := intents[s := intents[s].(requested := q)];
      return true;
    }

    /** failClosedPendingExecution */
    method FailClosed(s: Signal) returns (released: bool)
      modifies this
      ensures released == old(StatusIn(RowOf(Rows(), s), Rejectable))
      ensures RowOf(Rows(), s) == FailRow(old(RowOf(Rows(), s))) && Untouched(old(Rows()), Rows(), s)
    {
      if s !in positions || !Rejectable(positions[s].status) {
        return false;
      }
      positions := positions[s := positions[s].(status := Rejected)];
      var _ := Mark(s, IntentRejected);
      return true;
    }

    /** closeLocalPositionIfCloseable */
    method CloseIfCloseable(s: Signal) returns (applied: bool)
      modifies this
      ensures applied == old(StatusIn(RowOf(Rows(), s), Closeable))
      ensures RowOf(Rows(), s) == CloseRow(old(RowOf(Rows(), s))) && Untouched(old(Rows()), Rows(), s)
    {
      if s !in positions || positions[s].status.Closed? {
        return false;
      }
      if !Closeable(positions[s].status) {
        return false;
      }
      positions := positions[s := positions[s].(status := Closed)];
      return true;
    }

    /** persistPositionOpenFromBrokerResult, for an accepted result with a position. */
    method PersistOpen(s: Signal, f: Fill)
      modifies this
      ensures RowOf(Rows(), s) == PersistRow(old(RowOf(Rows(), s)), f) && Untouched(old(Rows()), Rows(), s)
    {
      if s !in positions || !Openable(positions[s].status) {
        return;
      }
      positions := positions[s := FillPosition(positions[s], f)];
      if s in intents && NeedsConfirm(intents[s]) {
        var _ := Mark(s, BrokerConfirmed);
      }
      var _ := Mark(s, Persisted);
    }

    /** tryRecoverExecutionIntentFromBroker */
    method TryRecover(s: Signal, adopt: Option<Fill>) returns (adopted: bool)
      modifies this
      ensures adopted == adopt.Some?
      ensures RowOf(Rows(), s)
              == (if adopted then TryRecoverRow(old(RowOf(Rows(), s)), adopt.value) else old(RowOf(Rows(), s)))
      ensures Untouched(old(Rows()), Rows(), s)
    {
      if adopt.None? {
        return false;
      }
      var _ := Mark(s, Recovered);
      PersistOpen(s, adopt.value);
      return true;
    }

    /** resolveCreatedExecutionIntentOnStartup */
    method ResolveCreated(s: Signal, intent: Intent, safe: bool, now: int) returns (r: Result<StartupResolution>)
      modifies this
      ensures r.Throws? <==> !Expired(intent.createdAt, now) && !FrozenUsable(intent)
      ensures r.Ok? && r.value.AwaitingResume? <==> !Expired(intent.createdAt, now) && FrozenUsable(intent) && safe
      ensures r.Ok? && r.value.ExpiredIntent? <==> Expired(intent.createdAt, now)
      ensures RowOf(Rows(), s) == (if r.Throws? || r.value.AwaitingResume? then old(RowOf(Rows(), s))
                                   else FailRow(old(RowOf(Rows(), s))))
      ensures Untouched(old(Rows()), Rows(), s)
    {
      if Expired(intent.createdAt, now) {
        var _ := FailClosed(s);
        return Ok(ExpiredIntent);
      }
      if !FrozenUsable(intent) {
        return Throws("Frozen execution intent missing takeProfit");
      }
      if !safe {
        var _ := FailClosed(s);
        return Ok(StaleIntent);
      }
      return Ok(AwaitingResume);
    }

    /** The recovery pass's own unguarded state write. */
    method ForceState(s: Signal, to: IntentState)
      requires s in intents && !to.Submitted?
      modifies this
      ensures RowOf(Rows(), s) == WithState(old(RowOf(Rows(), s)), to) && Untouched(old(Rows()), Rows(), s)
    {
      intents := intents[s := intents[s].(state := to)];
    }
  }
}
