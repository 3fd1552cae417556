/**
 * Bookings and payments over whole runs: the facts that let a callback, a recovery or the
 * reconciliation job act on what it read earlier, and what follows in every reachable state.
 */
module PaymentFlow {
  import opened Options
  import opened Records
  import opened Transactions
  import opened Schedule
  import opened Protocol
  import opened Evolution
  import opened Requests
  import opened PaymentCoupling

  // ----- what holds of the rows

  // A payment with sessions has a current one, so the retire branch's guard skips it.
  predicate SessionsNamed(db: Tables) {
    forall id :: id in db.payments ==> CurrentSessionNamed(db, id)
  }

  predicate Stamped(b: Booking) {
    && (b.status == PendingPayment ==> b.paymentDeadline.Some?)
    && (b.status == PendingApproval ==> b.paymentDeadline.None? && b.approvalDeadline.Some?)
  }

  predicate DeadlinesStamped(db: Tables) {
    forall id: BookingId :: id < |db.bookings| ==> Stamped(db.bookings[id])
  }

  // ----- what holds of the requests in flight

  // The payment of an open booking is still unsettled.
  predicate Unsettled(db: Tables, id: BookingId) {
    Is(db, id, PendingPayment) ==> PaymentIs(db, id, Initiated)
  }

  predicate PastDeadline(db: Tables, now: int, id: BookingId) {
    Is(db, id, PendingPayment) ==> db.bookings[id].paymentDeadline.Some? && db.bookings[id].paymentDeadline.value <= now
  }

  predicate QueueSound(db: Tables, now: int, queue: seq<BookingId>) {
    && Distinct(queue)
    && forall i :: 0 <= i < |queue| ==> queue[i] in db.payments && Unsettled(db, queue[i]) && PastDeadline(db, now, queue[i])
  }

  predicate PaymentFact(db: Tables, now: int, r: Request) {
    match r
    case CallingBack(id, session, sawFailed) =>
      && id in db.payments && session in db.payments[id].sessions
      && (if sawFailed then !PaymentIs(db, id, Initiated) else Unsettled(db, id))
    case Recovering(id, session, _) =>
      && id in db.payments && session in db.payments[id].sessions
      && (Is(db, id, PendingPayment) ==> !PaymentIs(db, id, Initiated))
    case Reconciling(queue, loaded) => QueueSound(db, now, queue)
    case ExpiringPayments(_, at, _) => at <= now
    case ExpiringApprovals(_, at) => at <= now
    case _ => true
  }

  predicate OneReconciliation(w: World) {
    forall rid, rid' | rid in w.requests && rid' in w.requests ::
      w.requests[rid].Reconciling? && w.requests[rid'].Reconciling? ==> rid == rid'
  }

  predicate MoneySound(w: World) {
    && Coupling(w.db) && CommissionSound(w.db) && SessionsNamed(w.db) && DeadlinesStamped(w.db)
    && OneReconciliation(w)
    && forall rid :: rid in w.requests ==> PaymentFact(w.db, w.now, w.requests[rid])
  }

  // ----- one transaction

  predicate RetiresNow(db: Tables, t: Txn, id: BookingId) {
    t == Retire(id) && id in db.payments && db.payments[id].authority.None?
  }

  // Only the retire branch writes off the payment of a booking that stays open.
  lemma OpenStaysUnsettled(db: Tables, t: Txn)
    requires TouchesOneRow(t) && Legal(t) && Backed(db, t) && PaymentIs(db, t.id, Initiated) && !RetiresNow(db, t, t.id)
    requires TargetFits(db, t.id) && Is(db, t.id, PendingPayment)
    ensures Is(Run(db, t), t.id, PendingPayment) ==> PaymentIs(Run(db, t), t.id, Initiated)
  {
    match t
    case Cancel(id, seen, byOwner, refund) =>
      if Is(db, id, seen) { CancelledRow(db, id, seen, byOwner, refund); }
    case AdminCancel(id, seen) =>
      if Is(db, id, seen) { AdminCancelledRow(db, id, seen); }
    case Decline(id, seenStake) => DeclinedRow(db, id, seenStake);
    case Capture(id, session) => CapturedRow(db, id, session);
    case ReconcileCapture(id, session) => CapturedRow(db, id, session);
    case _ =>
  }

  // What anyone who looked at a payment may still rely on after somebody else's transaction.
  lemma OthersSeeForward(db: Tables, t: Txn, id: BookingId)
    requires Legal(t) && Backed(db, t) && Coupling(db) && id in db.payments
    ensures var db' := Run(db, t);
            && id in db'.payments && db.payments[id].sessions <= db'.payments[id].sessions
            && (Is(db', id, PendingPayment) ==>
                  Is(db, id, PendingPayment) && db'.bookings[id].paymentDeadline == db.bookings[id].paymentDeadline)
            && (!PaymentIs(db, id, Initiated) ==> !PaymentIs(db', id, Initiated))
            && (Unsettled(db, id) && !RetiresNow(db, t, id) ==> Unsettled(db', id))
  {
    var db' := Run(db, t);
    assert Fits(db.bookings[id].status, PaymentStatusOf(db, id));
    RunMovesPayments(db, t, id);
    RunEvolves(db, t);
    assert Evolves(db.bookings[id], db'.bookings[id]);
    if Is(db, id, PendingPayment) && PaymentIs(db, id, Initiated) && !RetiresNow(db, t, id) && Is(db', id, PendingPayment) {
      if TouchesOneRow(t) {
        RunWritesPayment(db, t);
        if t.id == id {
          OpenStaysUnsettled(db, t);
        }
      } else {
        RestLeavesPayment(db, t, id);
      }
    }
  }

  lemma RestLeavesPayment(db: Tables, t: Txn, id: BookingId)
    requires !TouchesOneRow(t) && id in db.payments && Exists(db, id)
    ensures id in Run(db, t).payments && Run(db, t).payments[id] == db.payments[id]
  {
    match t
    case PlaceHold(now, slot, terms) => HoldPlacedRow(db, now, slot, terms);
    case EnterManual(_, _, _, _) =>
    case ExpirePayments(ids, at, cutoff) => BatchRows(db, ids, UnpaidBy(at, cutoff));
    case ExpireApprovals(ids, at) => BatchRows(db, ids, UndecidedBy(at));
  }

  lemma FactSurvives(db: Tables, db': Tables, t: Txn, now: int, r: Request)
    requires db' == Run(db, t) && Legal(t) && Backed(db, t) && Coupling(db) && SessionsNamed(db)
    requires PaymentFact(db, now, r)
    requires r.Reconciling? ==> forall i :: 0 <= i < |r.queue| ==> !RetiresNow(db, t, r.queue[i])
    ensures PaymentFact(db', now, r)
  {
    match r
    case CallingBack(id, session, sawFailed) => OthersSeeForward(db, t, id);
    case Recovering(id, session, _) => OthersSeeForward(db, t, id);
    case Reconciling(queue, _) =>
      forall i | 0 <= i < |queue|
        ensures queue[i] in db'.payments && Unsettled(db', queue[i]) && PastDeadline(db', now, queue[i])
      {
        OthersSeeForward(db, t, queue[i]);
      }
    case _ =>
  }

  predicate CurrentSessionNamed(db: Tables, id: BookingId) {
    id in db.payments && db.payments[id].sessions != [] ==> db.payments[id].authority.Some?
  }

  lemma CancelNamesSession(db: Tables, t: Txn)
    requires (t.Cancel? || t.AdminCancel?) && CurrentSessionNamed(db, t.id)
    ensures CurrentSessionNamed(Run(db, t), t.id)
  {
    if Is(db, t.id, t.seen) {
      if t.Cancel? {
        CancelledRow(db, t.id, t.seen, t.byOwner, t.refund);
      } else {
        AdminCancelledRow(db, t.id, t.seen);
      }
    }
  }

  lemma TargetSessionsNamed(db: Tables, t: Txn)
    requires TouchesOneRow(t) && CurrentSessionNamed(db, t.id)
    ensures CurrentSessionNamed(Run(db, t), t.id)
  {
    match t
    case Approve(id, now, deposit, stake, online, deadline) =>
      if Is(db, id, PendingApproval) { ApprovedRow(db, id, now, deposit, stake, online, deadline); }
    case Cancel(_, _, _, _) => CancelNamesSession(db, t);
    case AdminCancel(_, _) => CancelNamesSession(db, t);
    case Decline(id, seenStake) => DeclinedRow(db, id, seenStake);
    case _ =>
  }

  lemma RunNamesSessions(db: Tables, t: Txn)
    requires SessionsNamed(db)
    ensures SessionsNamed(Run(db, t))
  {
    match t
    case PlaceHold(now, slot, terms) => HoldPlacedRow(db, now, slot, terms);
    case EnterManual(_, _, _, _) =>
    case ExpirePayments(ids, at, cutoff) => BatchRows(db, ids, UnpaidBy(at, cutoff));
    case ExpireApprovals(ids, at) => BatchRows(db, ids, UndecidedBy(at));
    case _ =>
      RunWritesPayment(db, t);
      TargetSessionsNamed(db, t);
  }

  // A booking enters pending_payment only together with its deadline.
  lemma RunStamps(db: Tables, t: Txn)
    requires Legal(t) && DeadlinesStamped(db)
    ensures DeadlinesStamped(Run(db, t))
  {
    var db' := Run(db, t);
    RunRowCount(db, t);
    forall id: BookingId | id < |db'.bookings|
      ensures Stamped(db'.bookings[id])
    {
      if id < |db.bookings| {
        assert Stamped(db.bookings[id]);
        OldRowStaysStamped(db, t, id);
      } else {
        NewRowStamped(db, t);
      }
    }
  }

  lemma EvolvedStaysStamped(b: Booking, b': Booking)
    requires Evolves(b, b') && Stamped(b)
    requires b.status == PendingApproval && b'.status == PendingPayment ==> b'.paymentDeadline.Some?
    ensures Stamped(b')
  {
  }

  lemma OldRowStaysStamped(db: Tables, t: Txn, id: BookingId)
    requires Legal(t) && Exists(db, id) && Stamped(db.bookings[id])
    ensures Exists(Run(db, t), id) && Stamped(Run(db, t).bookings[id])
  {
    RunEvolves(db, t);
    if Is(db, id, PendingApproval) {
      OnlyApprovalOpensPayment(db, t, id);
    }
    EvolvedStaysStamped(db.bookings[id], Run(db, t).bookings[id]);
  }

  // Nothing but an approval takes a booking from pending_approval to pending_payment.
  lemma TargetOpensByApproval(db: Tables, t: Txn)
    requires TouchesOneRow(t) && Legal(t) && Is(db, t.id, PendingApproval)
    ensures Is(Run(db, t), t.id, PendingPayment) ==> t.Approve? && Run(db, t).bookings[t.id].paymentDeadline == Some(t.deadline)
  {
    match t
    case Approve(id, now, deposit, stake, online, deadline) => ApprovedRow(db, id, now, deposit, stake, online, deadline);
    case Invalidate(id) => EndedRow(db, id, PendingApproval, Expired);
    case Reject(id) => EndedRow(db, id, PendingApproval, RejectedBySalon);
    case Cancel(id, seen, byOwner, refund) =>
      if Is(db, id, seen) { CancelledRow(db, id, seen, byOwner, refund); }
    case AdminCancel(id, seen) =>
      if Is(db, id, seen) { AdminCancelledRow(db, id, seen); }
    case Decline(id, seenStake) => DeclinedRow(db, id, seenStake);
    case _ =>
  }

  lemma OnlyApprovalOpensPayment(db: Tables, t: Txn, id: BookingId)
    requires Legal(t) && Is(db, id, PendingApproval)
    ensures Is(Run(db, t), id, PendingPayment) ==>
              t.Approve? && t.id == id && Run(db, t).bookings[id].paymentDeadline == Some(t.deadline)
  {
    match t
    case PlaceHold(now, slot, terms) => HoldPlacedRow(db, now, slot, terms);
    case EnterManual(_, _, _, _) =>
    case ExpirePayments(ids, at, cutoff) => BatchRows(db, ids, UnpaidBy(at, cutoff));
    case ExpireApprovals(ids, at) => BatchRows(db, ids, UndecidedBy(at));
    case _ =>
      RunWritesRow(db, t);
      if t.id == id {
        TargetOpensByApproval(db, t);
      }
  }

  lemma NewRowStamped(db: Tables, t: Txn)
    requires Legal(t)
    ensures |Run(db, t).bookings| > |db.bookings| ==> Stamped(Run(db, t).bookings[|db.bookings|])
  {
    RunRowCount(db, t);
    if t.PlaceHold? {
      HoldPlacedRow(db, t.now, t.slot, t.terms);
    }
  }

  // ----- one step

  lemma CommitIsBacked(site: Site, w: World, step: Step)
    requires Sound(w) && MoneySound(w) && Enabled(site, w, step)
    ensures Commits(site, w, step).Some? ==> Backed(w.db, Commits(site, w, step).value)
  {
    if step.Commit? {
      assert PaymentFact(w.db, w.now, w.requests[step.rid]);
    }
  }

  lemma OthersKeepFacts(site: Site, w: World, step: Step, rid: RequestId)
    requires Sound(w) && MoneySound(w) && Enabled(site, w, step)
    requires rid in w.requests && Actor(step) != Some(rid)
    ensures PaymentFact(Apply(site, w, step).db, Apply(site, w, step).now, w.requests[rid])
  {
    var w' := Apply(site, w, step);
    var r := w.requests[rid];
    assert PaymentFact(w.db, w.now, r);
    DbChangesByTxn(site, w, step);
    CommitIsLegal(site, w, step);
    CommitIsBacked(site, w, step);
    var t := Commits(site, w, step);
    if t.Some? {
      FactSurvives(w.db, w'.db, t.value, w.now, r);
    }
  }

  // A reconciliation's rest of the queue does not contain the payment it just handled.
  lemma QueueAdvances(db: Tables, db': Tables, t: Txn, now: int, queue: seq<BookingId>)
    requires db' == Run(db, t) && Legal(t) && Backed(db, t) && Coupling(db) && QueueSound(db, now, queue)
    requires queue != [] && TouchesOneRow(t) && t.id == queue[0]
    ensures QueueSound(db', now, queue[1..])
  {
    forall i | 0 <= i < |queue[1..]|
      ensures queue[1..][i] in db'.payments && Unsettled(db', queue[1..][i]) && PastDeadline(db', now, queue[1..][i])
    {
      OthersSeeForward(db, t, queue[i + 1]);
    }
  }

  predicate FactAt(w: World, rid: RequestId) {
    rid in w.requests ==> PaymentFact(w.db, w.now, w.requests[rid])
  }

  // A captured callback that lost its booking guard goes on to recover; the rest are done.
  lemma RemainderHasFact(site: Site, w: World, rid: RequestId, late: Late)
    requires Coupling(w.db) && FactAt(w, rid) && Enabled(site, w, Commit(rid, late)) && !w.requests[rid].Reconciling?
    ensures FactAt(Apply(site, w, Commit(rid, late)), rid)
  {
  }

  lemma ReconcilerHasFact(site: Site, w: World, rid: RequestId, late: Late)
    requires Sound(w) && MoneySound(w) && Enabled(site, w, Commit(rid, late)) && w.requests[rid].Reconciling?
    ensures FactAt(Apply(site, w, Commit(rid, late)), rid)
  {
    var r := w.requests[rid];
    assert PaymentFact(w.db, w.now, r);
    CommitIsLegal(site, w, Commit(rid, late));
    CommitIsBacked(site, w, Commit(rid, late));
    var t := TxnOf(site, w, r, late);
    QueueAdvances(w.db, Run(w.db, t), t, w.now, r.queue);
  }

  lemma CommitLeavesSoundFact(site: Site, w: World, rid: RequestId, late: Late)
    requires Sound(w) && MoneySound(w) && Enabled(site, w, Commit(rid, late))
    ensures FactAt(Apply(site, w, Commit(rid, late)), rid)
  {
    assert FactAt(w, rid);
    if w.requests[rid].Reconciling? {
      ReconcilerHasFact(site, w, rid, late);
    } else {
      RemainderHasFact(site, w, rid, late);
    }
  }

  // A request starts on what the rows show at that moment.
  lemma StarterHasFact(site: Site, w: World, step: Step)
    requires Coupling(w.db) && DeadlinesStamped(w.db) && Enabled(site, w, step) && step.Begin?
    ensures FactAt(Apply(site, w, step), step.rid)
  {
  }

  // So do a recovery's start and read, and a reconciliation's load and skip.
  predicate Watches(step: Step) {
    step.Load? || step.Skip? || step.StartRecovery? || step.ReadPayment?
  }

  lemma WatcherHasFact(site: Site, w: World, step: Step)
    requires Watches(step) && FactAt(w, step.rid) && Enabled(site, w, step)
    ensures FactAt(Apply(site, w, step), step.rid)
  {
    assert PaymentFact(w.db, w.now, Advanced(site, w, step));
  }

  // A placement in progress, and an unlocking, rely on nothing here.
  lemma PlacerHasFact(site: Site, w: World, step: Step)
    requires Enabled(site, w, step) && Advances(step) && !Watches(step)
    ensures FactAt(Apply(site, w, step), step.rid)
  {
  }

  lemma LeaverHasFact(site: Site, w: World, step: Step)
    requires Enabled(site, w, step) && (step.CommitInvalid? || step.Abort? || step.Unlock?)
    ensures FactAt(Apply(site, w, step), step.rid)
  {
  }

  lemma ActorKeepsFact(site: Site, w: World, step: Step)
    requires Sound(w) && MoneySound(w) && Enabled(site, w, step)
    ensures Actor(step).Some? ==> FactAt(Apply(site, w, step), Actor(step).value)
  {
    if step.Commit? {
      CommitLeavesSoundFact(site, w, step.rid, step.late);
    } else if step.Begin? {
      StarterHasFact(site, w, step);
    } else if Actor(step).Some? && Watches(step) {
      assert FactAt(w, step.rid);
      WatcherHasFact(site, w, step);
    } else if step.CommitInvalid? || step.Abort? || step.Unlock? {
      LeaverHasFact(site, w, step);
    } else if Actor(step).Some? {
      PlacerHasFact(site, w, step);
    }
  }

  lemma StepKeepsOneReconciliation(site: Site, w: World, step: Step)
    requires OneReconciliation(w) && Enabled(site, w, step)
    ensures OneReconciliation(Apply(site, w, step))
  {
    var w' := Apply(site, w, step);
    forall rid, rid' | rid in w'.requests && rid' in w'.requests && w'.requests[rid].Reconciling? && w'.requests[rid'].Reconciling?
      ensures rid == rid'
    {
      if Actor(step) != Some(rid) { OthersWait(site, w, step, rid); }
      if Actor(step) != Some(rid') { OthersWait(site, w, step, rid'); }
    }
  }

  lemma StepKeepsRows(site: Site, w: World, step: Step)
    requires Sound(w) && MoneySound(w) && Enabled(site, w, step)
    ensures var db := Apply(site, w, step).db; Coupling(db) && CommissionSound(db) && SessionsNamed(db) && DeadlinesStamped(db)
  {
    DbChangesByTxn(site, w, step);
    CommitIsLegal(site, w, step);
    CommitIsBacked(site, w, step);
    var t := Commits(site, w, step);
    if t.Some? {
      RunKeepsCoupling(w.db, t.value);
      RunKeepsCommission(w.db, t.value);
      RunNamesSessions(w.db, t.value);
      RunStamps(w.db, t.value);
    }
  }

  lemma StepKeepsMoney(site: Site, w: World, step: Step)
    requires Sound(w) && MoneySound(w) && Enabled(site, w, step)
    ensures MoneySound(Apply(site, w, step))
  {
    var w' := Apply(site, w, step);
    StepKeepsRows(site, w, step);
    StepKeepsOneReconciliation(site, w, step);
    forall rid | rid in w'.requests
      ensures PaymentFact(w'.db, w'.now, w'.requests[rid])
    {
      if Actor(step) == Some(rid) {
        ActorKeepsFact(site, w, step);
      } else {
        OthersWait(site, w, step, rid);
        OthersKeepFacts(site, w, step, rid);
      }
    }
  }

  // ----- every run

  lemma {:induction false} MoneyKept(site: Site, w: World, steps: seq<Step>)
    requires Sound(w) && MoneySound(w) && Possible(site, w, steps)
    ensures Sound(After(site, w, steps)) && MoneySound(After(site, w, steps))
    decreases |steps|
  {
    if steps == [] {
    } else {
      StepStaysSound(site, w, steps[0]);
      StepKeepsMoney(site, w, steps[0]);
      MoneyKept(site, Apply(site, w, steps[0]), steps[1..]);
    }
  }

  // In every reachable state a request has no payment, an appointment has none or a paid one,
  // and each booking has accrued commission at most once and is not also being refunded.
  lemma PaymentsMatchBookings(site: Site, w: World, steps: seq<Step>)
    requires Init(w) && Possible(site, w, steps)
    ensures var db := After(site, w, steps).db; Coupling(db) && CommissionSound(db) && DeadlinesStamped(db)
  {
    MoneyKept(site, w, steps);
  }

  // From one state to a later one: a booking keeps its terms, an ended one stays as it ended, a
  // refunded payment stays refunded and a stamped deadline stays put.
  predicate SameHistory(db: Tables, db': Tables, id: BookingId) {
    && Exists(db, id) && Exists(db', id) && Lasting(db.bookings[id], db'.bookings[id])
    && (!SlotBlocking(db.bookings[id].status) ==> db'.bookings[id].status == db.bookings[id].status)
    && (PaymentIs(db, id, Refunded) ==> PaymentIs(db', id, Refunded))
    && (db.bookings[id].paymentDeadline.Some? ==> db'.bookings[id].paymentDeadline == db.bookings[id].paymentDeadline)
  }

  lemma StepKeepsHistory(site: Site, w: World, step: Step, id: BookingId)
    requires Sound(w) && MoneySound(w) && Enabled(site, w, step) && Exists(w.db, id)
    ensures SameHistory(w.db, Apply(site, w, step).db, id)
  {
    DbChangesByTxn(site, w, step);
    CommitIsLegal(site, w, step);
    if Commits(site, w, step).Some? {
      RunKeepsHistory(w.db, Commits(site, w, step).value, id);
    }
  }

  lemma RunKeepsHistory(db: Tables, t: Txn, id: BookingId)
    requires Legal(t) && Coupling(db) && DeadlinesStamped(db) && Exists(db, id)
    ensures SameHistory(db, Run(db, t), id)
  {
    RunEvolves(db, t);
    assert Evolves(db.bookings[id], Run(db, t).bookings[id]) && Stamped(db.bookings[id]);
    if id in db.payments {
      RunMovesPayments(db, t, id);
    }
  }

  // So commission and refund exclude each other for good, over any stretch of a run.
  lemma {:induction false} HistoryIsFinal(site: Site, w: World, steps: seq<Step>, id: BookingId)
    requires Sound(w) && MoneySound(w) && Possible(site, w, steps) && Exists(w.db, id)
    ensures SameHistory(w.db, After(site, w, steps).db, id)
    decreases |steps|
  {
    if steps == [] {
    } else {
      StepStaysSound(site, w, steps[0]);
      StepKeepsMoney(site, w, steps[0]);
      StepKeepsHistory(site, w, steps[0], id);
      HistoryIsFinal(site, Apply(site, w, steps[0]), steps[1..], id);
    }
  }
}
