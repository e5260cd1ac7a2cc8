/**
 The startup pass over a user's unresolved intents, and the pass over pending positions that have no intent.
 */
module Recovery {
  import opened Wrappers
  import opened ExecutionModel
  import opened Helpers
  import opened Integrity

  /** How one iteration of the pass ends. */
  datatype Turn = Recovers | StillUnresolved | SyncsRejection | Awaits | FailsClosed | LeavesUnmatched | Aborts

  predicate OpenWithTicket(r: Row) {
    r.position.Some? && r.position.value.status.Open? && r.position.value.ticket.Some?
  }

  function TurnOf(r: Row, v: View, now: int): Turn {
    if r.intent.None? || !r.intent.value.linked || r.position.None? then StillUnresolved
    else if OpenWithTicket(r) then Recovers
    else if r.position.value.status.Rejected? then SyncsRejection
    else if !v.quoted then StillUnresolved
    else if v.adopt.Some? then Recovers
    else
      var i := r.intent.value;
      if i.state.Created? && !i.submitted then
        if !FrozenUsable(i) then Aborts
        else if Expired(i.createdAt, now) || !v.safe then FailsClosed
        else Awaits
      else LeavesUnmatched
  }

  /** The two rows after their iteration. */
  function PassRow(r: Row, v: View, now: int): Row {
    match TurnOf(r, v, now)
    case Recovers =>
      if OpenWithTicket(r) then WithState(r, Persisted)
      else
        var t := TryRecoverRow(r, v.adopt.value);
        if r.intent.value.state.Recovered? then MarkRow(t, Persisted) else t
    case SyncsRejection => WithState(r, IntentRejected)
    case FailsClosed => FailRow(r)
    case _ => r
  }

  datatype Counts = Counts(recovered: nat, stillUnresolved: nat, failedClosed: nat, awaitingResume: nat)

  function Tallied(c: Counts, t: Turn): Counts {
    match t
    case Recovers => c.(recovered := c.recovered + 1)
    case StillUnresolved => c.(stillUnresolved := c.stillUnresolved + 1)
    case SyncsRejection => c
    case Awaits => c.(awaitingResume := c.awaitingResume + 1, stillUnresolved := c.stillUnresolved + 1)
    case FailsClosed => c.(failedClosed := c.failedClosed + 1, stillUnresolved := c.stillUnresolved + 1)
    case LeavesUnmatched => c.(failedClosed := c.failedClosed + 1, stillUnresolved := c.stillUnresolved + 1)
    case Aborts => c
  }

  /** The intents the pass lists: each of the user's unresolved intents once, oldest first. */
  ghost predicate Listed(db: Db, user: string, batch: seq<Signal>) {
    && (forall s :: s in batch <==> s in db.intents && s.user == user && Unresolved(db.intents[s].state))
    && (forall i, j | 0 <= i < j < |batch| ::
          batch[i] != batch[j] && db.intents[batch[i]].createdAt <= db.intents[batch[j]].createdAt)
  }

  /** How many iterations over rows as they are in db only copy a rejection onto the intent. */
  function RejectionSyncs(db: Db, batch: seq<Signal>, views: Signal -> View, now: int): nat {
    if batch == [] then 0
    else
      var last := batch[|batch| - 1];
      RejectionSyncs(db, batch[..|batch| - 1], views, now)
      + (if TurnOf(RowOf(db, last), views(last), now).SyncsRejection? then 1 else 0)
  }

  /** recoverUnresolvedMt5ExecutionIntents, one iteration. */
  method RecoverOne(store: Store, s: Signal, v: View, now: int) returns (t: Turn)
    requires s in store.intents && Unresolved(store.intents[s].state)
    modifies store
    ensures t == TurnOf(old(RowOf(store.Rows(), s)), v, now)
    ensures RowOf(store.Rows(), s) == PassRow(old(RowOf(store.Rows(), s)), v, now)
    ensures Untouched(old(store.Rows()), store.Rows(), s)
  {
    var intent := store.intents[s];
    if !intent.linked || s !in store.positions {
      return StillUnresolved;
    }
    var position := store.positions[s];
    if position.status.Open? && position.ticket.Some? {
      store.ForceState(s, Persisted);
      return Recovers;
    }
    if position.status.Rejected? {
      store.ForceState(s, IntentRejected);
      return SyncsRejection;
    }
    if !v.quoted {
      return StillUnresolved;
    }
    var adopted := store.TryRecover(s, v.adopt);
    if adopted {
      if intent.state.Recovered? {
        var _ := store.Mark(s, Persisted);
      }
      return Recovers;
    }
    if intent.state.Created? && !intent.submitted {
      if !FrozenUsable(intent) {
        return Aborts;
      }
      var resolution := store.ResolveCreated(s, intent, v.safe, now);
      return if resolution.value.AwaitingResume? then Awaits else FailsClosed;
    }
    return LeavesUnmatched;
  }

  /** Exactly the signals of done have had their iteration, each from its old rows. */
  ghost predicate Passed(a: Db, b: Db, done: seq<Signal>, views: Signal -> View, now: int) {
    && (forall s | s in done :: RowOf(b, s) == PassRow(RowOf(a, s), views(s), now))
    && (forall s | s !in done :: RowOf(b, s) == RowOf(a, s))
  }

  lemma PassedOneMore(a: Db, b: Db, c: Db, done: seq<Signal>, s: Signal, views: Signal -> View, now: int)
    requires Passed(a, b, done, views, now) && s !in done
    requires RowOf(c, s) == PassRow(RowOf(b, s), views(s), now) && Untouched(b, c, s)
    ensures Passed(a, c, done + [s], views, now)
  {
  }

  /** The returned counters, with the uncounted rejection syncs, account for every iteration so far. */
  predicate Accounted(a: Db, done: seq<Signal>, views: Signal -> View, now: int, counts: Counts) {
    && counts.recovered + counts.stillUnresolved + RejectionSyncs(a, done, views, now) == |done|
    && counts.failedClosed + counts.awaitingResume <= counts.stillUnresolved
  }

  lemma AccountedOneMore(a: Db, done: seq<Signal>, s: Signal, views: Signal -> View, now: int, counts: Counts)
    requires Accounted(a, done, views, now, counts) && !TurnOf(RowOf(a, s), views(s), now).Aborts?
    ensures Accounted(a, done + [s], views, now, Tallied(counts, TurnOf(RowOf(a, s), views(s), now)))
  {
    assert (done + [s])[..|done|] == done;
  }

  // ----- what each counter counts -----

  /** The pass finds the signal's position. */
  predicate Located(r: Row) {
    r.intent.Some? && r.intent.value.linked && r.position.Some?
  }

  /** Neither the position's status alone decides, nor a match at the broker. */
  predicate Unmatched(r: Row, v: View) {
    Located(r) && !OpenWithTicket(r) && !r.position.value.status.Rejected? && v.quoted && v.adopt.None?
  }

  /** Created, never submitted, within its four hours, and still safe to submit. */
  predicate StillResumable(r: Row, v: View, now: int) {
    && r.intent.Some? && r.intent.value.state.Created? && !r.intent.value.submitted
    && now <= r.intent.value.createdAt + 14_400_000 && v.safe
  }

  predicate IsRecovered(r: Row, v: View, now: int) {
    Located(r) && (OpenWithTicket(r) || (!r.position.value.status.Rejected? && v.quoted && v.adopt.Some?))
  }

  predicate IsUnresolved(r: Row, v: View, now: int) {
    !Located(r) || (!OpenWithTicket(r) && !r.position.value.status.Rejected? && (v.quoted ==> v.adopt.None?))
  }

  predicate IsAwaiting(r: Row, v: View, now: int) {
    Unmatched(r, v) && StillResumable(r, v, now)
  }

  predicate IsFailedClosed(r: Row, v: View, now: int) {
    Unmatched(r, v) && !StillResumable(r, v, now)
  }

  /** How many of the listed signals are p, by their old rows and the broker's answers. */
  function Number(a: Db, done: seq<Signal>, views: Signal -> View, now: int, p: (Row, View, int) -> bool): nat {
    if done == [] then 0
    else
      var last := done[|done| - 1];
      Number(a, done[..|done| - 1], views, now, p) + (if p(RowOf(a, last), views(last), now) then 1 else 0)
  }

  lemma NumberPush(a: Db, done: seq<Signal>, s: Signal, views: Signal -> View, now: int, p: (Row, View, int) -> bool)
    ensures Number(a, done + [s], views, now, p)
            == Number(a, done, views, now, p) + (if p(RowOf(a, s), views(s), now) then 1 else 0)
  {
    assert (done + [s])[..|done|] == done;
  }

  predicate Counted(a: Db, done: seq<Signal>, views: Signal -> View, now: int, counts: Counts) {
    && counts.recovered == Number(a, done, views, now, IsRecovered)
    && counts.stillUnresolved == Number(a, done, views, now, IsUnresolved)
    && counts.failedClosed == Number(a, done, views, now, IsFailedClosed)
    && counts.awaitingResume == Number(a, done, views, now, IsAwaiting)
  }

  lemma TallyCounts(r: Row, v: View, now: int, c: Counts)
    requires r.intent.Some? && !TurnOf(r, v, now).Aborts?
    ensures var d := Tallied(c, TurnOf(r, v, now));
            && d.recovered == c.recovered + (if IsRecovered(r, v, now) then 1 else 0)
            && d.stillUnresolved == c.stillUnresolved + (if IsUnresolved(r, v, now) then 1 else 0)
            && d.failedClosed == c.failedClosed + (if IsFailedClosed(r, v, now) then 1 else 0)
            && d.awaitingResume == c.awaitingResume + (if IsAwaiting(r, v, now) then 1 else 0)
  {
  }

  lemma CountedOneMore(a: Db, done: seq<Signal>, s: Signal, views: Signal -> View, now: int, c: Counts)
    requires Counted(a, done, views, now, c) && s in a.intents && !TurnOf(RowOf(a, s), views(s), now).Aborts?
    ensures Counted(a, done + [s], views, now, Tallied(c, TurnOf(RowOf(a, s), views(s), now)))
  {
    TallyCounts(RowOf(a, s), views(s), now, c);
    NumberPush(a, done, s, views, now, IsRecovered);
    NumberPush(a, done, s, views, now, IsUnresolved);
    NumberPush(a, done, s, views, now, IsFailedClosed);
    NumberPush(a, done, s, views, now, IsAwaiting);
  }

  /**
   recoverUnresolvedMt5ExecutionIntents over the listed intents. When nothing throws, every listed signal's
   rows are what one iteration over its old rows makes them, and every other row is untouched.
   */
  method RecoverUnresolved(store: Store, user: string, batch: seq<Signal>, views: Signal -> View, now: int)
    returns (r: Result<Counts>)
    requires Listed(store.Rows(), user, batch)
    modifies store
    ensures var a := old(store.Rows());
            r.Throws? <==> exists s :: s in batch && TurnOf(RowOf(a, s), views(s), now).Aborts?
    ensures r.Ok? ==> Passed(old(store.Rows()), store.Rows(), batch, views, now)
    ensures r.Ok? ==> Accounted(old(store.Rows()), batch, views, now, r.value)
    ensures r.Ok? ==> Counted(old(store.Rows()), batch, views, now, r.value)
    ensures r.Throws? ==> exists k | 0 <= k < |batch| ::
                            TurnOf(RowOf(old(store.Rows()), batch[k]), views(batch[k]), now).Aborts?
                            && Passed(old(store.Rows()), store.Rows(), batch[..k], views, now)
  {
    var counts := Counts(0, 0, 0, 0);
    ghost var a := store.Rows();
    var k := 0;
    while k < |batch|
      invariant 0 <= k <= |batch|
      invariant Passed(a, store.Rows(), batch[..k], views, now)
      invariant Accounted(a, batch[..k], views, now, counts)
      invariant Counted(a, batch[..k], views, now, counts)
      invariant forall s | s in batch[..k] :: !TurnOf(RowOf(a, s), views(s), now).Aborts?
    {
      var s := batch[k];
      assert batch[..k + 1] == batch[..k] + [s];
      ghost var b := store.Rows();
      assert RowOf(b, s) == RowOf(a, s);
      var turn := RecoverOne(store, s, views(s), now);
      if turn.Aborts? {
        assert Passed(a, store.Rows(), batch[..k], views, now) by {
          assert forall t :: RowOf(store.Rows(), t) == RowOf(b, t);
        }
        return Throws("Frozen execution intent missing takeProfit");
      }
      PassedOneMore(a, b, store.Rows(), batch[..k], s, views, now);
      AccountedOneMore(a, batch[..k], s, views, now, counts);
      CountedOneMore(a, batch[..k], s, views, now, counts);
      counts := Tallied(counts, turn);
      k := k + 1;
    }
    assert batch[..k] == batch;
    return Ok(counts);
  }

  // ----- what a pass achieves -----

  predicate Unfinished(r: Row) {
    r.intent.Some? && Unresolved(r.intent.value.state)
  }

  /** PERSISTED only over a position that was opened or closed. */
  predicate SoundRow(r: Row) {
    r.position.Some? && r.intent.Some? && r.intent.value.state.Persisted? ==> Settled(r.position.value.status)
  }

  predicate TakesSlot(r: Row) {
    r.position.Some? && r.position.value.engine && Consumes(r.position.value.status)
  }

  /** The broker was asked about an order that could still be opened, and holds a match for it. */
  predicate AdoptsNow(r: Row, v: View) {
    StatusIn(r, Openable) && !OpenWithTicket(r) && v.quoted && v.adopt.Some?
  }

  /** The two rows of one examined signal after its iteration. */
  lemma PassRowResolves(r: Row, v: View, now: int)
    requires Unfinished(r) && r.intent.value.linked && r.position.Some?
    ensures var after := PassRow(r, v, now);
            && after.position.Some? && after.intent.Some?
            && (after.position.value.status.Rejected? ==> after.intent.value.state.IntentRejected?)
            && (OpenWithTicket(after) && !after.intent.value.state.Persisted?
                <==> AdoptsNow(r, v) && r.intent.value.state.Created?)
  {
  }

  /**
   Whatever the tables, after a whole pass every examined position that is REJECTED, before or because of the pass, has
   a REJECTED intent; and one that is OPEN with a ticket has a PERSISTED intent, unless the pass itself just adopted it
   for an intent that was CREATED, which Matches shows no run offers it.
   */
  lemma PassResolvesRows(a: Db, b: Db, user: string, batch: seq<Signal>, views: Signal -> View, now: int, s: Signal)
    requires Listed(a, user, batch) && Passed(a, b, batch, views, now) && s in batch
    requires a.intents[s].linked && s in a.positions
    ensures s in b.intents && s in b.positions
    ensures b.positions[s].status.Rejected? ==> b.intents[s].state.IntentRejected?
    ensures b.positions[s].status.Open? && b.positions[s].ticket.Some? && !b.intents[s].state.Persisted?
            <==> AdoptsNow(RowOf(a, s), views(s)) && a.intents[s].state.Created?
  {
    PassRowResolves(RowOf(a, s), views(s), now);
    var r := RowOf(b, s);
    assert r.position.Some? ==> s in b.positions;
    assert r.intent.Some? ==> s in b.intents;
  }

  /**
   A serial iteration keeps PERSISTED sound (its unconditional last mark included), takes no slot, and
   never reopens a terminal position.
   */
  lemma PassKeepsRowsSound(r: Row, v: View, now: int)
    requires Unfinished(r)
    ensures SoundRow(PassRow(r, v, now))
    ensures TakesSlot(PassRow(r, v, now)) ==> TakesSlot(r)
    ensures StatusIn(r, Terminal) ==> PassRow(r, v, now).position == r.position
  {
  }

  /** An iteration rejects a position exactly when it was waiting under an intent that was never submitted, the broker
      was asked and holds no match, and the intent is too old or unsafe; it opens one, with the match's ticket and
      volume, exactly when the broker holds a match for it. */
  lemma PassOutcomes(r: Row, v: View, now: int)
    requires Unfinished(r) && r.position.Some? && !TurnOf(r, v, now).Aborts?
    ensures var p, i, q := r.position.value, r.intent.value, PassRow(r, v, now).position;
            && q.Some?
            && (q.value.status.Rejected? && !p.status.Rejected?
                <==> && Rejectable(p.status) && IsFailedClosed(r, v, now)
                     && i.state.Created? && !i.submitted)
            && (q.value != p && q.value.status.Open? ==> i.linked && AdoptsNow(r, v))
            && (i.linked && AdoptsNow(r, v) ==>
                  && q.value.status.Open? && q.value.ticket == Some(v.adopt.value.ticket)
                  && q.value.params == p.params.(volume := v.adopt.value.volume))
  {
  }

  lemma HoldsIsTakesSlot(db: Db, s: Signal)
    ensures Holds(db, s) <==> TakesSlot(RowOf(db, s))
  {
  }

  /** An iteration gives a slot back: it fails closed, and the order was still waiting. The pass counts the first
      alone, so its counter may exceed the slots given back. */
  predicate Frees(r: Row, v: View, now: int) {
    TurnOf(r, v, now).FailsClosed? && StatusIn(r, Rejectable)
  }

  function FreedByPass(a: Db, batch: seq<Signal>, views: Signal -> View, now: int): set<Signal> {
    set s | s in batch && Holds(a, s) && Frees(RowOf(a, s), views(s), now)
  }

  lemma PassSlot(r: Row, v: View, now: int)
    requires Unfinished(r)
    ensures TakesSlot(PassRow(r, v, now)) <==> TakesSlot(r) && !Frees(r, v, now)
  {
  }

  /** A pass as a whole keeps every PERSISTED intent sound, and gives back exactly the slots of the orders it fails
      closed: adoptions and skips neither take nor free one. */
  lemma PassConservesSlots(a: Db, b: Db, user: string, batch: seq<Signal>, views: Signal -> View, now: int)
    requires Listed(a, user, batch) && Passed(a, b, batch, views, now) && forall s :: SoundRow(RowOf(a, s))
    ensures forall s :: SoundRow(RowOf(b, s))
    ensures Consumed(b, user) + |FreedByPass(a, batch, views, now)| == Consumed(a, user)
  {
    forall s
      ensures SoundRow(RowOf(b, s)) && (Holds(b, s) <==> Holds(a, s) && s !in FreedByPass(a, batch, views, now))
    {
      HoldsIsTakesSlot(a, s);
      HoldsIsTakesSlot(b, s);
      if s in batch {
        PassKeepsRowsSound(RowOf(a, s), views(s), now);
        PassSlot(RowOf(a, s), views(s), now);
      } else {
        assert RowOf(b, s) == RowOf(a, s);
      }
    }
    SlotsWithout(a, b, user, FreedByPass(a, batch, views, now));
  }

  lemma SlotsWithout(a: Db, b: Db, user: string, freed: set<Signal>)
    requires forall s :: Holds(b, s) <==> Holds(a, s) && s !in freed
    requires forall s | s in freed :: s.user == user && Holds(a, s)
    ensures Consumed(b, user) + |freed| == Consumed(a, user)
  {
    assert Slots(b, user) == Slots(a, user) - freed;
    assert freed <= Slots(a, user);
    assert Slots(a, user) == Slots(b, user) + freed;
  }

  /**
   The pass counts an adoption as recovered, but the intent ends PERSISTED exactly when it was not CREATED:
   no transition leads from CREATED to RECOVERED, BROKER_CONFIRMED or PERSISTED. In the tables of a run it was not.
   */
  lemma AdoptionPersistsExactlyUnlessCreated(r: Row, v: View, now: int)
    requires Unfinished(r) && r.intent.value.linked && StatusIn(r, Openable) && !OpenWithTicket(r)
    requires v.quoted && v.adopt.Some?
    ensures TurnOf(r, v, now).Recovers?
    ensures OpenWithTicket(PassRow(r, v, now))
    ensures PassRow(r, v, now).intent.value.state.Persisted? <==> !r.intent.value.state.Created?
  {
  }

  /** What a later pass does to a row: nothing once the intent is resolved. */
  function Again(r: Row, v: View, now: int): Row {
    if Unfinished(r) then PassRow(r, v, now) else r
  }

  /** Repeating the pass against the same broker answers settles after two passes. */
  lemma PassConverges(r: Row, v: View, now: int)
    ensures Again(Again(Again(r, v, now), v, now), v, now) == Again(Again(r, v, now), v, now)
  {
    if Unfinished(r) {
      var once := PassRow(r, v, now);
      if Unfinished(once) {
        SecondPass(r, v, now, once, PassRow(once, v, now));
      }
    }
  }

  /** A second pass resolves the intent, or there is nothing it can do. */
  lemma SecondPass(r: Row, v: View, now: int, once: Row, twice: Row)
    requires Unfinished(r) && once == PassRow(r, v, now) && Unfinished(once) && twice == PassRow(once, v, now)
    ensures Again(twice, v, now) == twice
  {
  }

  // ----- pending positions without an intent -----

  predicate LegacyPending(r: Row) {
    StatusIn(r, (st: Status) => st.Pending?) && r.position.value.engine && r.intent.None?
  }

  function LegacyRow(r: Row, v: View): Row {
    if LegacyPending(r) && v.quoted && v.adopt.Some?
    then r.(position := Some(FillPosition(r.position.value, v.adopt.value))) else r
  }

  /** The second loop opens a row exactly when it is a pending engine position without an intent and the broker was
      asked and holds a match, on the match's ticket and volume; any other row stays. */
  lemma LegacyOutcome(r: Row, v: View)
    ensures var after := LegacyRow(r, v);
            if r.position.Some? && r.position.value.status.Pending? && r.position.value.engine && r.intent.None?
               && v.quoted && v.adopt.Some?
            then && after.position.Some? && after.intent.None?
                 && after.position.value.status.Open? && after.position.value.engine
                 && after.position.value.ticket == Some(v.adopt.value.ticket)
                 && after.position.value.params == r.position.value.params.(volume := v.adopt.value.volume)
            else after == r
  {
  }

  /** The signals of a list that the second loop adopts. */
  function Adoptions(db: Db, batch: seq<Signal>, views: Signal -> View): set<Signal> {
    set s | s in batch && LegacyPending(RowOf(db, s)) && views(s).quoted && views(s).adopt.Some?
  }

  lemma AdoptionsOneMore(db: Db, done: seq<Signal>, s: Signal, views: Signal -> View)
    requires s !in done
    ensures |Adoptions(db, done + [s], views)| == |Adoptions(db, done, views)|
            + (if LegacyPending(RowOf(db, s)) && views(s).quoted && views(s).adopt.Some? then 1 else 0)
  {
    var one, more := Adoptions(db, done, views), Adoptions(db, done + [s], views);
    if LegacyPending(RowOf(db, s)) && views(s).quoted && views(s).adopt.Some? {
      assert more == one + {s};
    } else {
      assert more == one;
    }
  }

  /** Exactly the signals of done have been offered to the broker for adoption. */
  ghost predicate Offered(a: Db, b: Db, done: seq<Signal>, views: Signal -> View) {
    && (forall s | s in done :: RowOf(b, s) == LegacyRow(RowOf(a, s), views(s)))
    && (forall s | s !in done :: RowOf(b, s) == RowOf(a, s))
  }

  lemma OfferedKeepsSlots(a: Db, b: Db, done: seq<Signal>, views: Signal -> View, user: string)
    requires Offered(a, b, done, views)
    ensures Slots(b, user) == Slots(a, user)
  {
    forall s ensures Holds(b, s) <==> Holds(a, s) {
      assert RowOf(b, s) == RowOf(a, s) || RowOf(b, s) == LegacyRow(RowOf(a, s), views(s));
      assert RowOf(b, s).position.Some? <==> s in b.positions;
      assert RowOf(a, s).position.Some? <==> s in a.positions;
    }
  }

  /** The second loop: adopt pending positions that have no intent row. */
  method AdoptLegacy(store: Store, user: string, batch: seq<Signal>, views: Signal -> View) returns (recovered: nat)
    requires forall s :: s in batch ==>
               && s.user == user && s in store.positions
               && store.positions[s].status.Pending? && store.positions[s].engine
    requires forall i, j | 0 <= i < j < |batch| :: batch[i] != batch[j]
    modifies store
    ensures Offered(old(store.Rows()), store.Rows(), batch, views)
    ensures recovered == |Adoptions(old(store.Rows()), batch, views)|
    ensures Consumed(store.Rows(), user) == old(Consumed(store.Rows(), user))
  {
    recovered := 0;
    ghost var a := store.Rows();
    var k := 0;
    while k < |batch|
      invariant 0 <= k <= |batch| && recovered == |Adoptions(a, batch[..k], views)|
      invariant Offered(a, store.Rows(), batch[..k], views)
    {
      var s := batch[k];
      assert batch[..k + 1] == batch[..k] + [s];
      assert RowOf(store.Rows(), s) == RowOf(a, s);
      AdoptionsOneMore(a, batch[..k], s, views);
      if s !in store.intents && views(s).quoted && views(s).adopt.Some? {
        store.positions := store.positions[s := FillPosition(store.positions[s], views(s).adopt.value)];
        recovered := recovered + 1;
      }
      k := k + 1;
    }
    assert batch[..k] == batch;
    OfferedKeepsSlots(a, store.Rows(), batch, views, user);
  }
}
