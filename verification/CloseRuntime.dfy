/**
 Closing one local position, and the emergency close of every broker position the engine owns.
 */
module CloseRuntime {
  import opened Wrappers
  import opened ExecutionModel
  import opened Protocol
  import opened Helpers
  import opened Integrity

  // ----- one position -----

  datatype CloseReply = NotFound | AlreadyClosed | NoTicket | External | BrokerFailed | StaleState | Done

  /** What closing the position of a row answers; external: its metadata says the engine does not own it. */
  function CloseAnswer(r: Row, external: bool, agrees: bool): CloseReply {
    if r.position.None? then NotFound
    else if r.position.value.status.Closed? then AlreadyClosed
    else if r.position.value.ticket.None? then NoTicket
    else if external then External
    else if !agrees then BrokerFailed
    else if !Closeable(r.position.value.status) then StaleState
    else Done
  }

  /** The replies whose closed flag is true. */
  predicate SaysClosed(reply: CloseReply) {
    reply.AlreadyClosed? || reply.StaleState? || reply.Done?
  }

  /** The broker is asked exactly about a position of the engine that is not CLOSED and has a ticket, and the reply then
      tells what it answered; a reply without that tells which of the four was missing. */
  lemma BrokerAskedExactly(r: Row, external: bool, agrees: bool)
    ensures var reply := CloseAnswer(r, external, agrees);
            && (reply.BrokerFailed? || reply.StaleState? || reply.Done?
                <==> r.position.Some? && !r.position.value.status.Closed? && r.position.value.ticket.Some? && !external)
            && (reply.BrokerFailed? || reply.StaleState? || reply.Done? ==> (reply.BrokerFailed? <==> !agrees))
            && (reply.NotFound? <==> r.position.None?)
            && (reply.AlreadyClosed? ==> r.position.value.status.Closed?)
            && (reply.NoTicket? ==> r.position.value.ticket.None?)
            && (reply.External? ==> external)
  {
  }

  /** closeMt5LocalPosition: the broker first, the local row after it confirmed. */
  method CloseLocal(store: Store, s: Signal, external: bool, agrees: bool) returns (reply: CloseReply)
    modifies store
    ensures reply == CloseAnswer(old(RowOf(store.Rows(), s)), external, agrees)
    ensures RowOf(store.Rows(), s)
            == (if reply.Done? then CloseRow(old(RowOf(store.Rows(), s))) else old(RowOf(store.Rows(), s)))
    ensures Untouched(old(store.Rows()), store.Rows(), s)
  {
    if s !in store.positions {
      return NotFound;
    }
    var pos := store.positions[s];
    if pos.status.Closed? {
      return AlreadyClosed;
    }
    if pos.ticket.None? {
      return NoTicket;
    }
    if external {
      return External;
    }
    if !agrees {
      return BrokerFailed;
    }
    var applied := store.CloseIfCloseable(s);
    return if applied then Done else StaleState;
  }

  /** A close of the protocol, uninterrupted, does what CloseLocal does: c.ok stands for an owned position that the
      broker agrees to close. */
  lemma CloseAlone(sys: Sys, pid: nat, c: Choice, external: bool, agrees: bool) returns (n: nat)
    requires pid in sys.procs && sys.procs[pid].pc == Entry(Close) && c.ok == (!external && agrees)
    ensures var s := sys.procs[pid].sig; var r := RowOf(sys.db, s); var end := Alone(sys, pid, c, n);
            && RowOf(end.db, s) == (if CloseAnswer(r, external, agrees).Done? then CloseRow(r) else r)
            && pid !in end.procs
  {
    var one := Step(sys, Run(pid, c));
    AloneOnce(sys, pid, c);
    n := 1;
    if pid in one.procs {
      AloneOnce(one, pid, c);
      AloneTwice(sys, pid, c, 1, 1);
      n := 2;
    }
  }

  /** A position that was not opened has no broker ticket. */
  predicate TicketMeansOpened(db: Db, s: Signal) {
    s in db.positions && (Rejectable(db.positions[s].status) || db.positions[s].status.Rejected?)
    ==> db.positions[s].ticket.None?
  }

  lemma {:induction false} TicketRun(sys: Sys, es: seq<Event>, s: Signal)
    requires TicketMeansOpened(sys.db, s)
    ensures TicketMeansOpened(Exec(sys, es).db, s)
    decreases |es|
  {
    if es != [] {
      TicketRun(Step(sys, es[0]), es[1..], s);
    }
  }

  /** After every run, a reply says closed exactly when it leaves the local row CLOSED: the one row for which it would
      not, REJECTED with a broker ticket, never arises. */
  lemma SaysClosedIsRight(sys: Sys, es: seq<Event>, s: Signal, external: bool, agrees: bool)
    requires TicketMeansOpened(sys.db, s) && s in Exec(sys, es).db.positions
    ensures var r := RowOf(Exec(sys, es).db, s);
            var reply := CloseAnswer(r, external, agrees);
            var after := if reply.Done? then CloseRow(r) else r;
            after.position.Some? && (SaysClosed(reply) <==> after.position.value.status.Closed?)
  {
    TicketRun(sys, es, s);
  }

  // ----- the emergency close -----

  /** Position s is the user's local record of broker position id, as the emergency query selects it. */
  predicate LocalFor(db: Db, user: string, id: nat, s: Signal) {
    && s in db.positions && s.user == user && db.positions[s].ticket == Some(id)
    && (db.positions[s].status.Open? || db.positions[s].status.Pending? || db.positions[s].status.OpenRequested?)
  }

  ghost predicate HasLocal(db: Db, user: string, id: nat) {
    exists s :: LocalFor(db, user, id, s)
  }

  /** The schema keeps broker tickets unique. */
  ghost predicate TicketsUnique(db: Db) {
    forall s, t | s in db.positions && t in db.positions && db.positions[s].ticket.Some?
                  && db.positions[s].ticket == db.positions[t].ticket :: s == t
  }

  /** Exactly the locals of the ids done were closed, if the broker agreed. */
  ghost predicate ClosedFor(a: Db, b: Db, user: string, done: seq<nat>, agrees: nat -> bool) {
    && b.intents == a.intents && b.positions.Keys == a.positions.Keys
    && forall s | s in a.positions ::
         b.positions[s] == if exists id | id in done && agrees(id) :: LocalFor(a, user, id, s)
                           then a.positions[s].(status := Closed) else a.positions[s]
  }

  /** How the loop files one id. */
  datatype Filing = OnClosed | OnFailed | OnNeither

  ghost function FilingOf(a: Db, user: string, id: nat, agrees: nat -> bool, raced: nat -> bool): Filing {
    if !agrees(id) || !HasLocal(a, user, id) then OnFailed else if raced(id) then OnNeither else OnClosed
  }

  /** The two lists hold exactly the ids done that are filed there, each as often as it was done. */
  ghost predicate Sorted(a: Db, user: string, done: seq<nat>, agrees: nat -> bool, raced: nat -> bool,
                         closed: seq<nat>, failed: seq<nat>) {
    forall id ::
      && multiset(closed)[id]
         == (if FilingOf(a, user, id, agrees, raced).OnClosed? then multiset(done)[id] else 0)
      && multiset(failed)[id]
         == (if FilingOf(a, user, id, agrees, raced).OnFailed? then multiset(done)[id] else 0)
  }

  /** Closing the local of one more id. */
  lemma ClosedOneMore(a: Db, b: Db, c: Db, user: string, done: seq<nat>, id: nat, agrees: nat -> bool, s: Signal)
    requires TicketsUnique(a) && ClosedFor(a, b, user, done, agrees)
    requires id !in done && agrees(id) && LocalFor(a, user, id, s)
    requires c.intents == b.intents && c.positions == b.positions[s := b.positions[s].(status := Closed)]
    ensures ClosedFor(a, c, user, done + [id], agrees)
  {
    assert c.positions.Keys == a.positions.Keys;
    forall t | t in a.positions
      ensures c.positions[t] == if exists i | i in done + [id] && agrees(i) :: LocalFor(a, user, i, t)
                                then a.positions[t].(status := Closed) else a.positions[t]
    {
      if t == s {
        assert id in done + [id] && agrees(id) && LocalFor(a, user, id, t);
      } else if exists i | i in done && agrees(i) :: LocalFor(a, user, i, t) {
        var i :| i in done && agrees(i) && LocalFor(a, user, i, t);
        assert i in done + [id];
      }
    }
  }

  lemma ClosedNoMore(a: Db, b: Db, user: string, done: seq<nat>, id: nat, agrees: nat -> bool)
    requires ClosedFor(a, b, user, done, agrees) && (!agrees(id) || !HasLocal(a, user, id))
    ensures ClosedFor(a, b, user, done + [id], agrees)
  {
    forall t | t in a.positions
      ensures (exists i | i in done + [id] && agrees(i) :: LocalFor(a, user, i, t))
              <==> (exists i | i in done && agrees(i) :: LocalFor(a, user, i, t))
    {
      if i :| i in done && agrees(i) && LocalFor(a, user, i, t) {
        assert i in done + [id];
      }
    }
  }

  lemma SortedOneMore(a: Db, user: string, done: seq<nat>, id: nat, agrees: nat -> bool, raced: nat -> bool,
                      closed: seq<nat>, failed: seq<nat>)
    requires Sorted(a, user, done, agrees, raced, closed, failed)
    ensures var f := FilingOf(a, user, id, agrees, raced);
            Sorted(a, user, done + [id], agrees, raced,
                   if f.OnClosed? then closed + [id] else closed, if f.OnFailed? then failed + [id] else failed)
  {
  }

  /** One id of the plan: close its local record if the broker agreed and there is one. When raced, another activity
      closes the record after the broker call and before the guarded update, which then matches no row. */
  method CloseOne(store: Store, user: string, id: nat, localOpen: Db, agrees: nat -> bool, raced: nat -> bool,
                  ghost done: seq<nat>)
    returns (filing: Filing)
    requires TicketsUnique(localOpen) && ClosedFor(localOpen, store.Rows(), user, done, agrees) && id !in done
    modifies store
    ensures filing == FilingOf(localOpen, user, id, agrees, raced)
    ensures ClosedFor(localOpen, store.Rows(), user, done + [id], agrees)
  {
    ghost var b := store.Rows();
    if !agrees(id) {
      ClosedNoMore(localOpen, b, user, done, id, agrees);
      return OnFailed;
    }
    if s :| s in localOpen.positions && LocalFor(localOpen, user, id, s) {
      assert b.positions[s] == localOpen.positions[s];
      if raced(id) {
        var _ := store.CloseIfCloseable(s);
      }
      var applied := store.CloseIfCloseable(s);
      filing := if applied then OnClosed else OnNeither;
      RowsAgree(b, store.Rows(), s);
      ClosedOneMore(localOpen, b, store.Rows(), user, done, id, agrees, s);
    } else {
      assert !HasLocal(localOpen, user, id);
      ClosedNoMore(localOpen, b, user, done, id, agrees);
      return OnFailed;
    }
  }

  /** emergencyCloseOwnedMt5Positions over a plan of distinct broker positions. */
  method EmergencyClose(store: Store, user: string, plan: seq<nat>, agrees: nat -> bool, raced: nat -> bool)
    returns (closed: seq<nat>, failed: seq<nat>)
    requires TicketsUnique(store.Rows())
    requires forall i, j | 0 <= i < j < |plan| :: plan[i] != plan[j]
    modifies store
    ensures ClosedFor(old(store.Rows()), store.Rows(), user, plan, agrees)
    ensures Sorted(old(store.Rows()), user, plan, agrees, raced, closed, failed)
  {
    closed, failed := [], [];
    var localOpen := store.Rows();
    var k := 0;
    while k < |plan|
      invariant 0 <= k <= |plan|
      invariant ClosedFor(localOpen, store.Rows(), user, plan[..k], agrees)
      invariant Sorted(localOpen, user, plan[..k], agrees, raced, closed, failed)
    {
      assert plan[..k + 1] == plan[..k] + [plan[k]];
      SortedOneMore(localOpen, user, plan[..k], plan[k], agrees, raced, closed, failed);
      var filing := CloseOne(store, user, plan[k], localOpen, agrees, raced, plan[..k]);
      if filing.OnClosed? {
        closed := closed + [plan[k]];
      } else if filing.OnFailed? {
        failed := failed + [plan[k]];
      }
      k := k + 1;
    }
    assert plan[..k] == plan;
  }

  /** Tables that differ in one signal's position only. */
  lemma RowsAgree(b: Db, c: Db, s: Signal)
    requires Untouched(b, c, s) && s in b.positions
    requires RowOf(c, s) == WithStatus(RowOf(b, s), Closed)
    ensures c.intents == b.intents && c.positions == b.positions[s := b.positions[s].(status := Closed)]
  {
    assert forall t ::
        (t in c.positions <==> RowOf(c, t).position.Some?) && (t in c.intents <==> RowOf(c, t).intent.Some?);
    assert forall t ::
        (t in b.positions <==> RowOf(b, t).position.Some?) && (t in b.intents <==> RowOf(b, t).intent.Some?);
    forall t | t in b.intents ensures t in c.intents && c.intents[t] == b.intents[t] {
      assert t == s || RowOf(b, t) == RowOf(c, t);
      assert RowOf(b, s).intent == RowOf(c, s).intent;
    }
    forall t | t in c.intents ensures t in b.intents {
      assert t == s || RowOf(b, t) == RowOf(c, t);
      assert RowOf(b, s).intent == RowOf(c, s).intent;
    }
    forall t | t in b.positions && t != s ensures t in c.positions && c.positions[t] == b.positions[t] {
      assert RowOf(b, t) == RowOf(c, t);
    }
    forall t | t in c.positions && t != s ensures t in b.positions {
      assert RowOf(b, t) == RowOf(c, t);
    }
    assert RowOf(c, s).position.Some?;
  }

  /** On the lists of an emergency close: an id fails exactly when the broker does not agree or the user has no local
      record of it, and counts as closed exactly when both are there and no other close came first. */
  lemma FiledExactly(a: Db, user: string, plan: seq<nat>, agrees: nat -> bool, raced: nat -> bool, closed: seq<nat>,
                     failed: seq<nat>, id: nat)
    requires Sorted(a, user, plan, agrees, raced, closed, failed)
    ensures id in failed <==> id in plan && (!agrees(id) || forall s :: !LocalFor(a, user, id, s))
    ensures id in closed <==> id in plan && agrees(id) && !raced(id) && exists s :: LocalFor(a, user, id, s)
  {
    assert id in failed <==> multiset(failed)[id] > 0;
    assert id in closed <==> multiset(closed)[id] > 0;
    assert id in plan <==> multiset(plan)[id] > 0;
  }

  /** In the tables after an emergency close, a position of the user with a broker ticket is newly CLOSED exactly when
      its id was on the plan, the broker agreed, and it was OPEN, PENDING or OPEN_REQUESTED; any other position is as it
      was. */
  lemma ClosedExactly(a: Db, b: Db, user: string, plan: seq<nat>, agrees: nat -> bool, s: Signal, id: nat)
    requires ClosedFor(a, b, user, plan, agrees)
    requires s in a.positions && a.positions[s].ticket == Some(id)
    ensures s in b.positions
    ensures var st := a.positions[s].status;
            if s.user == user && id in plan && agrees(id) && (st.Open? || st.Pending? || st.OpenRequested?)
            then b.positions[s] == a.positions[s].(status := Closed)
            else b.positions[s] == a.positions[s]
  {
    assert forall i | LocalFor(a, user, i, s) :: i == id;
    if s.user == user && id in plan && agrees(id) {
      var st := a.positions[s].status;
      assert LocalFor(a, user, id, s) <==> st.Open? || st.Pending? || st.OpenRequested?;
    }
  }
}
