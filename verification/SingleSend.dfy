/**
 At most one broker order per signal: when execution attempts for a signal do not overlap, with crashes
 between any two steps and any number of recovery, sweep, close and stop-change activities mixed in.
 */
module SingleSend {
  import opened Wrappers
  import opened ExecutionModel
  import opened Protocol

  /** A live execution attempt on signal s. */
  predicate Attempts(sys: Sys, pid: nat, s: Signal) {
    pid in sys.procs && sys.procs[pid].attempt && sys.procs[pid].sig == s
  }

  /** The attempts of a run are serialised per signal: one starts only when no other is live. */
  ghost predicate Serialised(sys: Sys, es: seq<Event>)
    decreases |es|
  {
    es != [] ==>
      && (es[0].Spawn? && es[0].job.Attempt? ==> forall pid :: !Attempts(sys, pid, es[0].sig))
      && Serialised(Step(sys, es[0]), es[1..])
  }

  ghost predicate OneAttempt(sys: Sys, s: Signal) {
    forall p, q | Attempts(sys, p, s) && Attempts(sys, q, s) :: p == q
  }

  /** Program counters of an attempt from its gate to the broker's refusal. */
  predicate SendingPath(pc: Pc) {
    || pc.GatePosition? || pc.GateIntent? || pc.ResumeCheck? || pc.Lock? || pc.ReserveRead? || pc.ReserveInsert?
    || pc.PreSubmit? || pc.Refresh? || pc.LiveGate? || pc.SubmitRead? || pc.SubmitWrite? || pc.Send? || pc.Order?
    || pc.Reply?
    || (pc.Adopt? && pc.caller.RefusedReply?)
  }

  /** The order's position exists, nothing was sent for it beyond n orders, and none of them filled. */
  predicate Clean(sys: Sys, s: Signal, n: nat) {
    s in sys.db.positions && Tally(sys.sends, s) <= n && Tally(sys.fills, s) == 0 && n <= MAX_RESUBMITS
  }

  /** What the one live attempt of a signal may rely on at each program counter. */
  predicate SenderKnows(sys: Sys, s: Signal, pc: Pc) {
    match pc
    case GateIntent(_, _, status) => status.Some? ==> s in sys.db.positions
    case ResumeCheck => Clean(sys, s, 0)
    case LiveGate => Clean(sys, s, 0)
    case Lock(_, _) => s !in sys.db.intents
    case ReserveRead(_, _) => s !in sys.db.intents
    case ReserveInsert(_, _, _) => s !in sys.db.intents
    case PreSubmit(n) => Clean(sys, s, n)
    case Refresh(n, _) => Clean(sys, s, n)
    case SubmitRead(n) => Clean(sys, s, n)
    case SubmitWrite(n) => Clean(sys, s, n) && s in sys.db.intents
    case Send(n) => Clean(sys, s, n) && GateClosed(sys.db, s)
    case Order(n) => Clean(sys, s, n) && GateClosed(sys.db, s)
    case Reply(n, outcome) =>
      && s in sys.db.positions && Tally(sys.sends, s) <= n + 1 && n <= MAX_RESUBMITS && GateClosed(sys.db, s)
      && (outcome == Refused(true) ==> Tally(sys.fills, s) == 0)
    case Adopt(caller) =>
      caller.RefusedReply? ==>
        s in sys.db.positions && Tally(sys.sends, s) <= caller.attempt + 1
            && (caller.invalidStops ==> Tally(sys.fills, s) == 0)
    case MarkRead(to, _) => !to.Created?
    case MarkWrite(to, _) => !to.Created?
    case ForceWrite(to) => !to.Created?
    case _ => true
  }

  /** Orders sent for a signal stay within the budget, at most one filled, and sending shut the gate. */
  predicate Sent(sys: Sys, s: Signal) {
    && Tally(sys.sends, s) <= MAX_RESUBMITS + 1
    && Tally(sys.fills, s) <= 1
    && (Tally(sys.sends, s) > 0 ==> GateClosed(sys.db, s))
    && (Tally(sys.fills, s) > 0 ==> s in sys.db.positions && (s in sys.db.intents ==> GateClosed(sys.db, s)))
  }

  ghost predicate SendInv(sys: Sys) {
    && (forall s :: Sent(sys, s) && OneAttempt(sys, s))
    && (forall pid | pid in sys.procs ::
          SenderKnows(sys, sys.procs[pid].sig, sys.procs[pid].pc)
              && (SendingPath(sys.procs[pid].pc) ==> sys.procs[pid].attempt))
  }

  /** Once the intent has left CREATED-and-unsubmitted, no write reopens the gate. */
  lemma GateStaysClosed(db: Db, s: Signal, pc: Pc, c: Choice, t: Signal)
    requires GateClosed(db, t)
    requires (pc.MarkWrite? || pc.ForceWrite?) ==> !pc.to.Created?
    ensures GateClosed(NextDb(db, s, pc, c), t)
  {
  }

  /** Up to the reservation: an attempt learns that nothing was sent, or that the gate is shut. */
  lemma GateStep(sys: Sys, pid: nat, p: Proc, c: Choice)
    requires Sent(sys, p.sig) && SenderKnows(sys, p.sig, p.pc)
    requires p.pc.GatePosition? || p.pc.GateIntent? || p.pc.Lock? || p.pc.ReserveRead? || p.pc.ReserveInsert?
    requires pid in sys.procs && sys.procs[pid] == p && NextPc(sys, pid, p, c).Some?
    ensures SenderKnows(Advance(sys, pid, c), p.sig, NextPc(sys, pid, p, c).value)
  {
  }

  /** From the reservation to the send: nothing is sent, and marking the intent submitted shuts the gate. */
  lemma SubmitStep(sys: Sys, pid: nat, p: Proc, c: Choice)
    requires Sent(sys, p.sig) && SenderKnows(sys, p.sig, p.pc)
    requires p.pc.ResumeCheck? || p.pc.PreSubmit? || p.pc.Refresh? || p.pc.LiveGate? || p.pc.SubmitRead?
             || p.pc.SubmitWrite?
    requires pid in sys.procs && sys.procs[pid] == p && NextPc(sys, pid, p, c).Some?
    ensures SenderKnows(Advance(sys, pid, c), p.sig, NextPc(sys, pid, p, c).value)
  {
  }

  /** The send itself and what its reply leads to. */
  lemma ReplyStep(sys: Sys, pid: nat, p: Proc, c: Choice)
    requires Sent(sys, p.sig) && SenderKnows(sys, p.sig, p.pc)
    requires p.pc.Send? || p.pc.Order? || p.pc.Reply? || p.pc.Adopt?
    requires pid in sys.procs && sys.procs[pid] == p && NextPc(sys, pid, p, c).Some?
    ensures SenderKnows(Advance(sys, pid, c), p.sig, NextPc(sys, pid, p, c).value)
  {
  }

  /** No helper leads back onto the sending path. */
  lemma HelperStep(sys: Sys, pid: nat, p: Proc, c: Choice)
    requires !SendingPath(p.pc) && NextPc(sys, pid, p, c).Some?
    ensures !SendingPath(NextPc(sys, pid, p, c).value)
    ensures SenderKnows(sys, p.sig, p.pc) ==>
              var n := NextPc(sys, pid, p, c).value;
              (n.MarkRead? || n.MarkWrite? || n.ForceWrite?) ==> !n.to.Created?
  {
  }

  lemma SenderStep(sys: Sys, pid: nat, c: Choice)
    requires pid in sys.procs && SendInv(sys)
    ensures var next := Advance(sys, pid, c);
            pid in next.procs ==> SenderKnows(next, next.procs[pid].sig, next.procs[pid].pc)
                                  && (SendingPath(next.procs[pid].pc) ==> next.procs[pid].attempt)
  {
    var p := sys.procs[pid];
    assert SenderKnows(sys, p.sig, p.pc) && Sent(sys, p.sig);
    if NextPc(sys, pid, p, c).Some? {
      if !SendingPath(p.pc) {
        HelperStep(sys, pid, p, c);
      }
      if p.pc.GatePosition? || p.pc.GateIntent? || p.pc.Lock? || p.pc.ReserveRead? || p.pc.ReserveInsert? {
        GateStep(sys, pid, p, c);
      } else if p.pc.Send? || p.pc.Order? || p.pc.Reply? || p.pc.Adopt? {
        ReplyStep(sys, pid, p, c);
      } else if SendingPath(p.pc) {
        SubmitStep(sys, pid, p, c);
      }
    }
  }

  lemma SentStep(sys: Sys, pid: nat, c: Choice, s: Signal)
    requires pid in sys.procs && SendInv(sys)
    ensures Sent(Advance(sys, pid, c), s)
  {
    var p := sys.procs[pid];
    assert SenderKnows(sys, p.sig, p.pc);
    assert Sent(sys, s);
    if GateClosed(sys.db, s) {
      GateStaysClosed(sys.db, p.sig, p.pc, c, s);
    }
  }

  /** What a step of a process that cannot send on s leaves as it was for s. */
  predicate Undisturbed(a: Sys, b: Sys, s: Signal) {
    && Tally(a.sends, s) == Tally(b.sends, s) && Tally(a.fills, s) == Tally(b.fills, s)
    && (s in a.db.positions ==> s in b.db.positions)
    && (s in a.db.intents <==> s in b.db.intents)
    && (GateClosed(a.db, s) ==> GateClosed(b.db, s))
  }

  lemma NonSenderUndisturbing(sys: Sys, pid: nat, c: Choice, s: Signal)
    requires pid in sys.procs && SenderKnows(sys, sys.procs[pid].sig, sys.procs[pid].pc)
    requires sys.procs[pid].sig != s || !SendingPath(sys.procs[pid].pc)
    ensures Undisturbed(sys, Advance(sys, pid, c), s)
  {
    var p := sys.procs[pid];
    if GateClosed(sys.db, s) {
      GateStaysClosed(sys.db, p.sig, p.pc, c, s);
    }
  }

  lemma KnowledgeUndisturbed(a: Sys, b: Sys, s: Signal, pc: Pc)
    requires SenderKnows(a, s, pc) && Undisturbed(a, b, s)
    ensures SenderKnows(b, s, pc)
  {
  }

  /** Any other process leaves an attempt's knowledge intact. */
  lemma BystanderKeeps(sys: Sys, pid: nat, c: Choice, other: nat)
    requires pid in sys.procs && other in sys.procs && pid != other && SendInv(sys)
    ensures SenderKnows(Advance(sys, pid, c), sys.procs[other].sig, sys.procs[other].pc)
  {
    var p, q := sys.procs[pid], sys.procs[other];
    assert SenderKnows(sys, p.sig, p.pc) && SenderKnows(sys, q.sig, q.pc);
    if SendingPath(q.pc) {
      assert p.sig != q.sig || !SendingPath(p.pc) by {
        assert OneAttempt(sys, q.sig);
        assert Attempts(sys, other, q.sig);
        assert p.sig == q.sig && p.attempt ==> Attempts(sys, pid, q.sig);
      }
      NonSenderUndisturbing(sys, pid, c, q.sig);
      KnowledgeUndisturbed(sys, Advance(sys, pid, c), q.sig, q.pc);
    }
  }

  lemma OneAttemptStep(sys: Sys, e: Event, s: Signal)
    requires SendInv(sys)
    requires e.Spawn? && e.job.Attempt? ==> forall pid :: !Attempts(sys, pid, e.sig)
    ensures OneAttempt(Step(sys, e), s)
  {
    var next := Step(sys, e);
    assert OneAttempt(sys, s);
    forall p, q | Attempts(next, p, s) && Attempts(next, q, s) ensures p == q {
      assert p in sys.procs && sys.procs[p].sig == s && sys.procs[p].attempt ==> Attempts(sys, p, s);
      assert q in sys.procs && sys.procs[q].sig == s && sys.procs[q].attempt ==> Attempts(sys, q, s);
    }
  }

  lemma OthersInformed(sys: Sys, pid: nat, c: Choice, other: nat)
    requires SendInv(sys) && pid in sys.procs && other != pid && other in sys.procs
    ensures var next := Advance(sys, pid, c);
            && other in next.procs && SenderKnows(next, next.procs[other].sig, next.procs[other].pc)
            && (SendingPath(next.procs[other].pc) ==> next.procs[other].attempt)
  {
    BystanderKeeps(sys, pid, c, other);
    assert Advance(sys, pid, c).procs[other] == sys.procs[other];
  }

  lemma EntryInformed(sys: Sys, s: Signal, job: Job)
    ensures SenderKnows(sys, s, Entry(job)) && (SendingPath(Entry(job)) ==> job.Attempt?)
  {
  }

  lemma SameTables(a: Sys, b: Sys, s: Signal, pc: Pc)
    requires a.db == b.db && a.sends == b.sends && a.fills == b.fills && SenderKnows(a, s, pc)
    ensures SenderKnows(b, s, pc)
  {
  }

  lemma IdleInformed(sys: Sys, e: Event, pid: nat)
    requires SendInv(sys) && !e.Run? && pid in Step(sys, e).procs
    ensures var next := Step(sys, e);
            && SenderKnows(next, next.procs[pid].sig, next.procs[pid].pc)
            && (SendingPath(next.procs[pid].pc) ==> next.procs[pid].attempt)
  {
    if pid in sys.procs {
      SameTables(sys, Step(sys, e), sys.procs[pid].sig, sys.procs[pid].pc);
    } else {
      EntryInformed(Step(sys, e), e.sig, e.job);
    }
  }

  lemma SendStep(sys: Sys, e: Event)
    requires SendInv(sys)
    requires e.Spawn? && e.job.Attempt? ==> forall pid :: !Attempts(sys, pid, e.sig)
    ensures SendInv(Step(sys, e))
  {
    var next := Step(sys, e);
    forall s ensures Sent(next, s) && OneAttempt(next, s) {
      OneAttemptStep(sys, e, s);
      assert Sent(sys, s);
      if e.Run? && e.pid in sys.procs {
        SentStep(sys, e.pid, e.choice, s);
      }
    }
    forall pid | pid in next.procs
      ensures SenderKnows(next, next.procs[pid].sig, next.procs[pid].pc)
      ensures SendingPath(next.procs[pid].pc) ==> next.procs[pid].attempt
    {
      if !e.Run? {
        IdleInformed(sys, e, pid);
      } else if e.pid in sys.procs {
        if pid == e.pid {
          SenderStep(sys, pid, e.choice);
        } else {
          OthersInformed(sys, e.pid, e.choice, pid);
        }
      }
    }
  }

  lemma {:induction false} SendRun(sys: Sys, es: seq<Event>)
    requires SendInv(sys) && Serialised(sys, es)
    ensures SendInv(Exec(sys, es))
    decreases |es|
  {
    if es != [] {
      SendStep(sys, es[0]);
      SendRun(Step(sys, es[0]), es[1..]);
    }
  }

  /**
   At most one order per signal ever fills, and at most two are sent: the second only as the single
   resubmission the caller allows itself.
   */
  lemma AtMostOneOrderFills(sys: Sys, es: seq<Event>, s: Signal)
    requires Initial(sys) && Serialised(sys, es)
    ensures Tally(Exec(sys, es).fills, s) <= 1
    ensures Tally(Exec(sys, es).sends, s) <= 2
  {
    forall t ensures Sent(sys, t) && OneAttempt(sys, t) {
      assert FillsKnown(sys, t);
    }
    SendRun(sys, es);
    assert Sent(Exec(sys, es), s);
  }

  /** Only attempts are on the sending path. */
  ghost predicate SendersAttempt(sys: Sys) {
    forall pid | pid in sys.procs :: SendingPath(sys.procs[pid].pc) ==> sys.procs[pid].attempt
  }

  lemma SendersAttemptStep(sys: Sys, e: Event)
    requires SendersAttempt(sys)
    ensures SendersAttempt(Step(sys, e))
  {
    var next := Step(sys, e);
    forall pid | pid in next.procs ensures SendingPath(next.procs[pid].pc) ==> next.procs[pid].attempt {
      if e.Run? && e.pid in sys.procs && pid == e.pid && !SendingPath(sys.procs[pid].pc) {
        HelperStep(sys, pid, sys.procs[pid], e.choice);
      }
    }
  }

  lemma {:induction false} SendersAttemptRun(sys: Sys, es: seq<Event>)
    requires SendersAttempt(sys)
    ensures SendersAttempt(Exec(sys, es))
    decreases |es|
  {
    if es != [] {
      SendersAttemptStep(sys, es[0]);
      SendersAttemptRun(Step(sys, es[0]), es[1..]);
    }
  }

  /** Recovery, sweep, close and stop-change activities never send, however attempts overlap: an order goes out only
      from a live attempt on its signal. */
  lemma OnlyAttemptsSend(sys: Sys, es: seq<Event>, e: Event, s: Signal)
    requires Initial(sys)
    requires Tally(Step(Exec(sys, es), e).sends, s) != Tally(Exec(sys, es).sends, s)
    ensures Attempts(Exec(sys, es), e.pid, s)
  {
    SendersAttemptRun(sys, es);
  }
}
