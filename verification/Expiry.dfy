/**
 The periodic sweep that expires CREATED intents nobody submitted within the resume window.
 */
module Expiry {
  import opened Wrappers
  import opened ExecutionModel
  import opened Helpers
  import opened Integrity
  import opened Recovery

  /** A sweep looks at no more than this many intents. */
  const SWEEP_LIMIT: nat := 50

  datatype SweepTurn = Expires | Adopts | Skips

  predicate Stale(i: Intent, now: int) {
    i.state.Created? && !i.submitted && Expired(i.createdAt, now)
  }

  function SweepTurnOf(r: Row, v: View): SweepTurn {
    if r.intent.None? || !r.intent.value.linked || r.position.None? || OpenWithTicket(r) then Skips
    else if Terminal(r.position.value.status) then Expires
    else if !Rejectable(r.position.value.status) || !v.quoted then Skips
    else if v.adopt.Some? then Adopts
    else Expires
  }

  function SweepRow(r: Row, v: View): Row {
    match SweepTurnOf(r, v)
    case Skips => r
    case Adopts => TryRecoverRow(r, v.adopt.value)
    case Expires => if StatusIn(r, Terminal) then MarkRow(r, IntentRejected) else FailRow(r)
  }

  datatype SweepCounts = SweepCounts(examined: nat, expired: nat, recovered: nat, skipped: nat)

  function SweepTallied(c: SweepCounts, t: SweepTurn): SweepCounts {
    match t
    case Expires => c.(examined := c.examined + 1, expired := c.expired + 1)
    case Adopts => c.(examined := c.examined + 1, recovered := c.recovered + 1)
    case Skips => c.(examined := c.examined + 1, skipped := c.skipped + 1)
  }

  /** The oldest stale intents of the user, at most SWEEP_LIMIT of them. */
  ghost predicate Selected(db: Db, user: string, batch: seq<Signal>, now: int) {
    && |batch| <= SWEEP_LIMIT
    && (forall s :: s in batch ==> s in db.intents && s.user == user && Stale(db.intents[s], now))
    && (forall i, j | 0 <= i < j < |batch| ::
          batch[i] != batch[j] && db.intents[batch[i]].createdAt <= db.intents[batch[j]].createdAt)
    && (forall s :: s in db.intents && s.user == user && Stale(db.intents[s], now) && s !in batch ==>
          |batch| == SWEEP_LIMIT && forall t | t in batch :: db.intents[t].createdAt <= db.intents[s].createdAt)
  }

  /** One iteration of the sweep. */
  method SweepOne(store: Store, s: Signal, v: View, now: int) returns (t: SweepTurn)
    requires s in store.intents && Stale(store.intents[s], now)
    modifies store
    ensures t == SweepTurnOf(old(RowOf(store.Rows(), s)), v)
    ensures RowOf(store.Rows(), s) == SweepRow(old(RowOf(store.Rows(), s)), v)
    ensures Untouched(old(store.Rows()), store.Rows(), s)
  {
    var intent := store.intents[s];
    if !intent.linked || s !in store.positions {
      return Skips;
    }
    var position := store.positions[s];
    if position.status.Open? && position.ticket.Some? {
      return Skips;
    }
    if Terminal(position.status) {
      if store.intents[s].state.Created? && !store.intents[s].submitted {
        store.ForceState(s, IntentRejected);
      }
      return Expires;
    }
    if !Rejectable(position.status) || !v.quoted {
      return Skips;
    }
    var adopted := store.TryRecover(s, v.adopt);
    if adopted {
      return Adopts;
    }
    var released := store.FailClosed(s);
    return if released then Expires else Skips;
  }

  /** Exactly the signals of done have been swept, each from its old rows. */
  ghost predicate Swept(a: Db, b: Db, done: seq<Signal>, views: Signal -> View) {
    && (forall s | s in done :: RowOf(b, s) == SweepRow(RowOf(a, s), views(s)))
    && (forall s | s !in done :: RowOf(b, s) == RowOf(a, s))
  }

  /** How many of the listed signals end their turn the given way. */
  function Turns(a: Db, done: seq<Signal>, views: Signal -> View, t: SweepTurn): nat {
    if done == [] then 0
    else Turns(a, done[..|done| - 1], views, t)
         + (if SweepTurnOf(RowOf(a, done[|done| - 1]), views(done[|done| - 1])) == t then 1 else 0)
  }

  predicate Reported(a: Db, done: seq<Signal>, views: Signal -> View, c: SweepCounts) {
    && c.examined == |done|
    && c.expired == Turns(a, done, views, Expires)
    && c.recovered == Turns(a, done, views, Adopts)
    && c.skipped == Turns(a, done, views, Skips)
  }

  lemma ReportedOneMore(a: Db, done: seq<Signal>, s: Signal, views: Signal -> View, c: SweepCounts)
    requires Reported(a, done, views, c)
    ensures Reported(a, done + [s], views, SweepTallied(c, SweepTurnOf(RowOf(a, s), views(s))))
  {
    assert (done + [s])[..|done|] == done;
  }

  /** Every examined intent is counted as exactly one of expired, recovered and skipped. */
  lemma {:induction false} TurnsPartition(a: Db, done: seq<Signal>, views: Signal -> View)
    ensures Turns(a, done, views, Expires) + Turns(a, done, views, Adopts) + Turns(a, done, views, Skips) == |done|
  {
    if done != [] {
      TurnsPartition(a, done[..|done| - 1], views);
    }
  }

  /** expireStaleCreatedExecutionIntents over the selected intents. */
  method ExpireStale(store: Store, user: string, batch: seq<Signal>, views: Signal -> View, now: int)
    returns (c: SweepCounts)
    requires Selected(store.Rows(), user, batch, now)
    modifies store
    ensures Swept(old(store.Rows()), store.Rows(), batch, views)
    ensures Reported(old(store.Rows()), batch, views, c)
    ensures c.examined == c.expired + c.recovered + c.skipped == |batch|
  {
    c := SweepCounts(0, 0, 0, 0);
    ghost var a := store.Rows();
    var k := 0;
    while k < |batch|
      invariant 0 <= k <= |batch|
      invariant Swept(a, store.Rows(), batch[..k], views)
      invariant Reported(a, batch[..k], views, c)
    {
      var s := batch[k];
      assert batch[..k + 1] == batch[..k] + [s];
      assert RowOf(store.Rows(), s) == RowOf(a, s);
      var turn := SweepOne(store, s, views(s), now);
      ReportedOneMore(a, batch[..k], s, views, c);
      c := SweepTallied(c, turn);
      k := k + 1;
    }
    assert batch[..k] == batch;
    TurnsPartition(a, batch, views);
  }

  // ----- what a sweep may change -----

  /**
   For a stale intent: its position becomes REJECTED exactly when it was still waiting and the broker was
   asked and holds no match, and becomes OPEN exactly when it was waiting and the broker holds one.
   */
  lemma RejectedOnlyAfterLookup(r: Row, v: View, now: int)
    requires r.intent.Some? && Stale(r.intent.value, now) && r.intent.value.linked && r.position.Some?
    ensures var after := SweepRow(r, v);
            && after.position.Some?
            && (after.position.value.status.Rejected? && !r.position.value.status.Rejected?
                <==> Rejectable(r.position.value.status) && v.quoted && v.adopt.None?)
            && (after.position.value.status.Open? && !r.position.value.status.Open?
                <==> Rejectable(r.position.value.status) && v.quoted && v.adopt.Some?)
    ensures TakesSlot(SweepRow(r, v)) ==> TakesSlot(r)
  {
  }

  /** The counters say what happened: expired, exactly when the intent ends REJECTED; recovered, exactly when the sweep
      opened the position; skipped, exactly when neither row changed. */
  lemma SweepCountsEffects(r: Row, v: View, now: int)
    requires r.intent.Some? && Stale(r.intent.value, now)
    ensures var t, after := SweepTurnOf(r, v), SweepRow(r, v);
            && (t.Expires? <==> after.intent.value.state.IntentRejected?)
            && (t.Adopts? <==> StatusIn(after, (st: Status) => st.Open?) && StatusIn(r, Rejectable))
            && (t.Skips? <==> after == r)
  {
  }

  /** Exactly the linked intents of terminal positions and of waiting ones without a match at the broker expire. */
  lemma ExpiresExactly(r: Row, v: View, now: int)
    requires r.intent.Some? && Stale(r.intent.value, now)
    ensures now > r.intent.value.createdAt + 14_400_000
    ensures SweepRow(r, v).intent.value.state.IntentRejected?
            <==> && r.intent.value.linked && r.position.Some?
                 && (r.position.value.status.Closed? || r.position.value.status.Rejected?
                     || ((r.position.value.status.Pending? || r.position.value.status.OpenRequested?)
                         && v.quoted && v.adopt.None?))
  {
  }

  /** The waiting orders that the sweep rejects. */
  function FreedBySweep(a: Db, batch: seq<Signal>, views: Signal -> View): set<Signal> {
    set s | s in batch && Holds(a, s) && SweepTurnOf(RowOf(a, s), views(s)).Expires?
  }

  lemma SweepSlot(r: Row, v: View)
    ensures TakesSlot(SweepRow(r, v)) <==> TakesSlot(r) && !SweepTurnOf(r, v).Expires?
  {
  }

  /** A sweep gives back exactly the slots of the waiting orders it expires. */
  lemma SweepConservesSlots(a: Db, b: Db, user: string, batch: seq<Signal>, views: Signal -> View, now: int)
    requires Selected(a, user, batch, now) && Swept(a, b, batch, views)
    ensures Consumed(b, user) + |FreedBySweep(a, batch, views)| == Consumed(a, user)
  {
    forall s ensures Holds(b, s) <==> Holds(a, s) && s !in FreedBySweep(a, batch, views) {
      HoldsIsTakesSlot(a, s);
      HoldsIsTakesSlot(b, s);
      if s in batch {
        SweepSlot(RowOf(a, s), views(s));
      } else {
        assert RowOf(b, s) == RowOf(a, s);
      }
    }
    SlotsWithout(a, b, user, FreedBySweep(a, batch, views));
  }

  /** A swept intent the broker did hold a match for would be counted recovered but stay CREATED over its OPEN position;
      the branch is defensive, since no run offers the sweep such a match. */
  lemma SweepAdoptionLeavesCreated(r: Row, v: View, now: int)
    requires r.intent.Some? && Stale(r.intent.value, now) && SweepTurnOf(r, v).Adopts?
    ensures SweepRow(r, v).intent == r.intent && OpenWithTicket(SweepRow(r, v))
    ensures SweepTurnOf(SweepRow(r, v), v).Skips?
    ensures PassRow(SweepRow(r, v), v, now).intent.value.state.Persisted?
  {
  }

  /** The sweep and the startup pass agree on an expired pending intent the broker can be asked about. */
  lemma SweepAgreesWithPass(r: Row, v: View, now: int)
    requires r.intent.Some? && Stale(r.intent.value, now) && StatusIn(r, Rejectable) && v.quoted
    requires r.intent.value.linked && (v.adopt.None? ==> FrozenUsable(r.intent.value))
    ensures SweepRow(r, v) == PassRow(r, v, now)
  {
  }
}
