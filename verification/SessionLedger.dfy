/**
 * The gateway sessions of a payment over whole runs. Its current session is always one that was
 * issued for it, and what the reconciliation job loaded is what had been issued by then: the
 * ledger only grows at its end. So the sessions the job did not ask about are exactly those
 * issued since, and a capture it writes off is one of them or came after it asked.
 */
module SessionLedger {
  import opened Options
  import opened Records
  import opened Transactions
  import opened Schedule
  import opened Protocol
  import opened Evolution
  import opened Requests
  import opened PaymentCoupling
  import opened PaymentFlow
  import opened Forfeiture
  import opened Runs

  predicate CurrentIssued(db: Tables, id: BookingId) {
    id in db.payments && db.payments[id].authority.Some? ==> db.payments[id].authority.value in db.payments[id].sessions
  }

  predicate AllCurrentIssued(db: Tables) {
    forall id :: id in db.payments ==> CurrentIssued(db, id)
  }

  // What a reconciliation loaded begins the ledger of the payment it is at.
  predicate LoadedFact(db: Tables, r: Request) {
    r.Reconciling? && r.loaded.Some? ==>
      r.queue != [] && r.queue[0] in db.payments && r.loaded.value <= db.payments[r.queue[0]].sessions
  }

  predicate SessionSound(w: World) {
    AllCurrentIssued(w.db) && forall rid :: rid in w.requests ==> LoadedFact(w.db, w.requests[rid])
  }

  // ----- one transaction

  // A capture is recorded under a session that was issued for that payment.
  predicate PaidThroughIssued(db: Tables, t: Txn) {
    (t.Capture? || t.ReconcileCapture? || t.Recover?) ==> t.id in db.payments && t.session in db.payments[t.id].sessions
  }

  lemma CancelKeepsCurrent(db: Tables, t: Txn)
    requires (t.Cancel? || t.AdminCancel?) && CurrentIssued(db, t.id)
    ensures CurrentIssued(Run(db, t), t.id)
  {
    if Is(db, t.id, t.seen) {
      if t.Cancel? {
        CancelledRow(db, t.id, t.seen, t.byOwner, t.refund);
      } else {
        AdminCancelledRow(db, t.id, t.seen);
      }
    }
  }

  lemma TargetKeepsCurrent(db: Tables, t: Txn)
    requires TouchesOneRow(t) && PaidThroughIssued(db, t) && CurrentIssued(db, t.id)
    ensures CurrentIssued(Run(db, t), t.id)
  {
    if t.Cancel? || t.AdminCancel? {
      CancelKeepsCurrent(db, t);
    } else if t.Decline? {
      DeclinedRow(db, t.id, t.seenStake);
    } else if t.Approve? && Is(db, t.id, PendingApproval) {
      ApprovedRow(db, t.id, t.now, t.seenDeposit, t.seenStake, t.online, t.deadline);
    }
  }

  lemma RunKeepsCurrent(db: Tables, t: Txn)
    requires PaidThroughIssued(db, t) && AllCurrentIssued(db)
    ensures AllCurrentIssued(Run(db, t))
  {
    match t
    case PlaceHold(now, slot, terms) => HoldPlacedRow(db, now, slot, terms);
    case EnterManual(_, _, _, _) =>
    case ExpirePayments(ids, at, cutoff) => BatchRows(db, ids, UnpaidBy(at, cutoff));
    case ExpireApprovals(ids, at) => BatchRows(db, ids, UndecidedBy(at));
    case _ =>
      RunWritesPayment(db, t);
      TargetKeepsCurrent(db, t);
  }

  // ----- one step

  lemma CommitPaysThroughIssued(site: Site, w: World, step: Step)
    requires MoneySound(w) && SessionSound(w) && Enabled(site, w, step)
    ensures Commits(site, w, step).Some? ==> PaidThroughIssued(w.db, Commits(site, w, step).value)
  {
    if step.Commit? {
      assert PaymentFact(w.db, w.now, w.requests[step.rid]);
      assert LoadedFact(w.db, w.requests[step.rid]);
    }
  }

  lemma StepGrowsLedger(site: Site, w: World, step: Step, id: BookingId)
    requires Sound(w) && MoneySound(w) && Enabled(site, w, step) && id in w.db.payments
    ensures id in Apply(site, w, step).db.payments
    ensures w.db.payments[id].sessions <= Apply(site, w, step).db.payments[id].sessions
  {
    DbChangesByTxn(site, w, step);
    CommitIsLegal(site, w, step);
    if Commits(site, w, step).Some? {
      RunMovesPayments(w.db, Commits(site, w, step).value, id);
    }
  }

  // Only loading gives a request something loaded.
  lemma LeaverHasNothingLoaded(site: Site, w: World, step: Step)
    requires Enabled(site, w, step) && (step.Commit? || step.CommitInvalid? || step.Abort? || step.Unlock?)
    ensures var w' := Apply(site, w, step);
            step.rid in w'.requests && w'.requests[step.rid].Reconciling? ==> w'.requests[step.rid].loaded.None?
  {
  }

  lemma ActorLoads(site: Site, w: World, step: Step)
    requires Enabled(site, w, step) && Actor(step).Some?
    ensures Actor(step).value in Apply(site, w, step).requests ==>
              LoadedFact(Apply(site, w, step).db, Apply(site, w, step).requests[Actor(step).value])
  {
    if step.Commit? || step.CommitInvalid? || step.Abort? || step.Unlock? {
      LeaverHasNothingLoaded(site, w, step);
    }
  }

  lemma StepKeepsSessions(site: Site, w: World, step: Step)
    requires Sound(w) && MoneySound(w) && SessionSound(w) && Enabled(site, w, step)
    ensures SessionSound(Apply(site, w, step))
  {
    var w' := Apply(site, w, step);
    DbChangesByTxn(site, w, step);
    CommitPaysThroughIssued(site, w, step);
    if Commits(site, w, step).Some? {
      RunKeepsCurrent(w.db, Commits(site, w, step).value);
    }
    forall rid | rid in w'.requests
      ensures LoadedFact(w'.db, w'.requests[rid])
    {
      if Actor(step) == Some(rid) {
        ActorLoads(site, w, step);
      } else {
        OthersWait(site, w, step, rid);
        OthersStayLoaded(site, w, step, w.requests[rid]);
      }
    }
  }

  lemma OthersStayLoaded(site: Site, w: World, step: Step, r: Request)
    requires Sound(w) && MoneySound(w) && Enabled(site, w, step) && LoadedFact(w.db, r)
    ensures LoadedFact(Apply(site, w, step).db, r)
  {
    if r.Reconciling? && r.loaded.Some? {
      StepGrowsLedger(site, w, step, r.queue[0]);
    }
  }

  // ----- every run

  lemma {:induction false} SessionsThroughout(site: Site, w: World, steps: seq<Step>)
    requires Sound(w) && MoneySound(w) && SessionSound(w) && Possible(site, w, steps)
    ensures SessionSound(After(site, w, steps))
    decreases |steps|
  {
    if steps == [] {
    } else {
      StepStaysSound(site, w, steps[0]);
      StepKeepsMoney(site, w, steps[0]);
      StepKeepsSessions(site, w, steps[0]);
      SessionsThroughout(site, Apply(site, w, steps[0]), steps[1..]);
    }
  }

  // In every reachable state a payment's current session is in its ledger, and it has one as soon
  // as any was issued; and what a reconciliation loaded is the ledger less what was issued since.
  lemma CurrentSessionsAreIssued(site: Site, w: World, steps: seq<Step>)
    requires Init(w) && Possible(site, w, steps)
    ensures var w' := After(site, w, steps);
            && (forall id :: id in w'.db.payments ==>
                  var p := w'.db.payments[id];
                  if p.authority.Some? then p.authority.value in p.sessions else p.sessions == [])
            && forall rid :: rid in w'.requests ==> LoadedFact(w'.db, w'.requests[rid])
  {
    MoneyKept(site, w, steps);
    SessionsThroughout(site, w, steps);
    var w' := After(site, w, steps);
    forall id | id in w'.db.payments
      ensures var p := w'.db.payments[id]; if p.authority.Some? then p.authority.value in p.sessions else p.sessions == []
    {
      assert CurrentIssued(w'.db, id) && CurrentSessionNamed(w'.db, id);
    }
  }

  // ----- money that arrives after a payment was written off

  // A written-off payment leaves that state only through a callback of one of its own sessions,
  // which queues the refund of that session. No job asks again.
  lemma OnlyItsCallbackRecovers(site: Site, w: World, step: Step, id: BookingId)
    requires Sound(w) && MoneySound(w) && Enabled(site, w, step)
    requires PaymentIs(w.db, id, Failed) && !PaymentIs(Apply(site, w, step).db, id, Failed)
    ensures step.Commit? && step.rid in w.requests
    ensures var r := w.requests[step.rid];
            && r.Recovering? && r.id == id && r.session in w.db.payments[id].sessions
            && PaymentIs(Apply(site, w, step).db, id, RefundPending)
            && Apply(site, w, step).db.payments[id].authority == Some(r.session)
  {
    DbChangesByTxn(site, w, step);
    CommitIsLegal(site, w, step);
    var t := Commits(site, w, step).value;
    FailedLeavesByRecovery(w.db, t, id);
    assert PaymentFact(w.db, w.now, w.requests[step.rid]);
  }

  lemma FailedLeavesByRecovery(db: Tables, t: Txn, id: BookingId)
    requires Legal(t) && Coupling(db) && PaymentIs(db, id, Failed)
    ensures !PaymentIs(Run(db, t), id, Failed) ==> t.Recover? && t.id == id
  {
    assert Fits(db.bookings[id].status, PaymentStatusOf(db, id));
    match t
    case PlaceHold(now, slot, terms) => HoldPlacedRow(db, now, slot, terms);
    case EnterManual(_, _, _, _) =>
    case ExpirePayments(ids, at, cutoff) => BatchRows(db, ids, UnpaidBy(at, cutoff));
    case ExpireApprovals(ids, at) => BatchRows(db, ids, UndecidedBy(at));
    case _ =>
      RunWritesPayment(db, t);
      if t.id == id {
        TargetLeavesByRecovery(db, t);
      }
  }

  lemma TargetLeavesByRecovery(db: Tables, t: Txn)
    requires TouchesOneRow(t) && Legal(t) && TargetFits(db, t.id) && PaymentIs(db, t.id, Failed)
    ensures !PaymentIs(Run(db, t), t.id, Failed) ==> t.Recover?
  {
    match t
    case Approve(id, now, deposit, stake, online, deadline) =>
      if Is(db, id, PendingApproval) { ApprovedRow(db, id, now, deposit, stake, online, deadline); }
    case Cancel(id, seen, byOwner, refund) =>
      if Is(db, id, seen) { CancelledRow(db, id, seen, byOwner, refund); }
    case AdminCancel(id, seen) =>
      if Is(db, id, seen) { AdminCancelledRow(db, id, seen); }
    case Decline(id, seenStake) => DeclinedRow(db, id, seenStake);
    case _ =>
  }

  // Until then the way back stays open, whatever else happens: the payment is written off and the
  // session still in its ledger, or money is on its way back.
  lemma {:induction false} RecoveryStaysOpen(site: Site, w: World, steps: seq<Step>, id: BookingId, session: Session)
    requires Sound(w) && MoneySound(w) && Possible(site, w, steps)
    requires id in w.db.payments && session in w.db.payments[id].sessions && (PaymentIs(w.db, id, Failed) || Refunding(w.db, id))
    ensures var db := After(site, w, steps).db;
            && id in db.payments && session in db.payments[id].sessions && (PaymentIs(db, id, Failed) || Refunding(db, id))
            && (Refunding(w.db, id) ==> Refunding(db, id))
    decreases |steps|
  {
    if steps == [] {
    } else {
      StepStaysSound(site, w, steps[0]);
      StepKeepsMoney(site, w, steps[0]);
      StepGrowsLedger(site, w, steps[0], id);
      StepKeepsRecoverable(site, w, steps[0], id);
      RecoveryStaysOpen(site, Apply(site, w, steps[0]), steps[1..], id, session);
    }
  }

  lemma StepKeepsRecoverable(site: Site, w: World, step: Step, id: BookingId)
    requires Sound(w) && MoneySound(w) && Enabled(site, w, step) && (PaymentIs(w.db, id, Failed) || Refunding(w.db, id))
    ensures var db := Apply(site, w, step).db;
            (PaymentIs(db, id, Failed) || Refunding(db, id)) && (Refunding(w.db, id) ==> Refunding(db, id))
  {
    DbChangesByTxn(site, w, step);
    CommitIsLegal(site, w, step);
    if Commits(site, w, step).Some? {
      RunMovesPayments(w.db, Commits(site, w, step).value, id);
    }
  }

  // And the session's callback, whenever it comes, sends its money back, booking untouched.
  lemma LateCaptureIsRefunded(site: Site, w: World, id: BookingId, session: Session, caller: RequestId) returns (steps: seq<Step>)
    requires PaymentIs(w.db, id, Failed) && session in w.db.payments[id].sessions
    requires caller !in w.requests && caller !in w.salonLock.Values
    ensures Possible(site, w, steps)
    ensures After(site, w, steps) == w.(db := RefundQueued(w.db, id, session))
  {
    var call := Begin(caller, CallingBack(id, session, true));
    var start := StartRecovery(caller);
    var called := w.(requests := w.requests[caller := CallingBack(id, session, true)]);
    assert Apply(site, w, call) == called;
    var recovering := w.(requests := w.requests[caller := Recovering(id, session, None)]);
    assert called.requests[caller := Recovering(id, session, None)] == recovering.requests;
    assert Apply(site, called, start) == recovering;
    var rest := Recovers(site, w, id, session, caller);
    StepThen(site, called, start, rest);
    StepThen(site, w, call, [start] + rest);
    steps := [call] + ([start] + rest);
  }

  // A recovery that nobody overtakes queues the refund.
  lemma Recovers(site: Site, w: World, id: BookingId, session: Session, caller: RequestId) returns (steps: seq<Step>)
    requires PaymentIs(w.db, id, Failed) || PaymentIs(w.db, id, Initiated)
    requires caller !in w.requests
    ensures var v := w.(requests := w.requests[caller := Recovering(id, session, None)]);
            Possible(site, v, steps) && After(site, v, steps) == w.(db := RefundQueued(w.db, id, session))
  {
    var v := w.(requests := w.requests[caller := Recovering(id, session, None)]);
    var status := w.db.payments[id].status;
    var read := w.(requests := w.requests[caller := Recovering(id, session, Some(status))]);
    assert v.requests[caller := Recovering(id, session, Some(status))] == read.requests;
    assert Apply(site, v, ReadPayment(caller)) == read;
    RecoveryUpdates(site, w, id, session, caller);
    TwoSteps(site, v, ReadPayment(caller), read, Commit(caller, NoInput));
    steps := [ReadPayment(caller), Commit(caller, NoInput)];
  }

  lemma RecoveryUpdates(site: Site, w: World, id: BookingId, session: Session, caller: RequestId)
    requires PaymentIs(w.db, id, Failed) || PaymentIs(w.db, id, Initiated)
    requires caller !in w.requests
    ensures var read := w.(requests := w.requests[caller := Recovering(id, session, Some(w.db.payments[id].status))]);
            && Enabled(site, read, Commit(caller, NoInput))
            && Apply(site, read, Commit(caller, NoInput)) == w.(db := RefundQueued(w.db, id, session))
  {
    var read := w.(requests := w.requests[caller := Recovering(id, session, Some(w.db.payments[id].status))]);
    assert CommitDb(site, read, caller, NoInput) == RefundQueued(w.db, id, session);
    assert read.requests - {caller} == w.requests;
  }
}
