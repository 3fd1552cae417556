/**
 * The requests that take no salon lock. Each may begin exactly when its service accepts it on the row
 * it reads, and undisturbed it is a run to the rows its transaction leaves.
 */
module UnlockedRequests {
  import opened Options
  import opened Records
  import opened Transactions
  import opened Schedule
  import opened Protocol
  import opened Runs
  import opened Decisions

  predicate Free(w: World, rid: RequestId) {
    rid !in w.requests && rid !in w.salonLock.Values
  }

  function Begun(w: World, rid: RequestId, r: Request): World {
    w.(requests := w.requests[rid := r])
  }

  lemma BeginsAndCommits(site: Site, w: World, rid: RequestId, r: Request, late: Late) returns (steps: seq<Step>)
    requires Free(w, rid) && CanBegin(site, w, r) && !r.Placing?
    requires CanCommit(site, Begun(w, rid, r), r, late) && Remainder(site, Begun(w, rid, r), r, late).None?
    ensures steps == [Begin(rid, r), Commit(rid, late)]
    ensures Possible(site, w, steps)
    ensures After(site, w, steps) == w.(db := Run(w.db, TxnOf(site, Begun(w, rid, r), r, late)),
                                        late := if LateCancellation(w.db, r) then w.late + {r.id} else w.late)
  {
    var v := Begun(w, rid, r);
    assert v.requests - {rid} == w.requests;
    TwoSteps(site, w, Begin(rid, r), v, Commit(rid, late));
    steps := [Begin(rid, r), Commit(rid, late)];
  }

  // ----- cancelling

  lemma CancelBeginsIff(site: Site, w: World, rid: RequestId, id: BookingId, seen: Status, byOwner: bool, refund: bool)
    requires Free(w, rid) && Exists(w.db, id)
    ensures Enabled(site, w, Begin(rid, Cancelling(id, seen, byOwner, refund))) <==>
              && seen == w.db.bookings[id].status
              && exists isCustomer, isOwner ::
                   DecideCancel(w.db.bookings[id], isCustomer, isOwner, w.now) == Success(Cancellation(byOwner, refund))
  {
    if Enabled(site, w, Begin(rid, Cancelling(id, seen, byOwner, refund))) {
      assert DecideCancel(w.db.bookings[id], true, byOwner, w.now) == Success(Cancellation(byOwner, refund));
    }
  }

  lemma AcceptedCancelIsARun(site: Site, w: World, rid: RequestId, id: BookingId, isCustomer: bool, isOwner: bool)
    returns (steps: seq<Step>)
    requires Free(w, rid) && Exists(w.db, id) && DecideCancel(w.db.bookings[id], isCustomer, isOwner, w.now).Success?
    ensures Possible(site, w, steps)
    ensures var c := DecideCancel(w.db.bookings[id], isCustomer, isOwner, w.now).value;
            var seen := w.db.bookings[id].status;
            After(site, w, steps) == w.(db := Run(w.db, Cancel(id, seen, c.byOwner, c.refund)),
                                        late := if seen == Confirmed && !c.refund then w.late + {id} else w.late)
  {
    var c := DecideCancel(w.db.bookings[id], isCustomer, isOwner, w.now).value;
    steps := BeginsAndCommits(site, w, rid, Cancelling(id, w.db.bookings[id].status, c.byOwner, c.refund), NoInput);
  }

  lemma AcceptedAdminCancelIsARun(site: Site, w: World, rid: RequestId, id: BookingId) returns (steps: seq<Step>)
    requires Free(w, rid) && Exists(w.db, id) && SlotBlocking(w.db.bookings[id].status)
    ensures Possible(site, w, steps)
    ensures After(site, w, steps) == w.(db := Run(w.db, AdminCancel(id, w.db.bookings[id].status)))
  {
    steps := BeginsAndCommits(site, w, rid, AdminCancelling(id, w.db.bookings[id].status), NoInput);
  }

  lemma AcceptedRejectionIsARun(site: Site, w: World, rid: RequestId, id: BookingId) returns (steps: seq<Step>)
    requires Free(w, rid) && Is(w.db, id, PendingApproval)
    ensures Possible(site, w, steps) && After(site, w, steps) == w.(db := Run(w.db, Reject(id)))
  {
    steps := BeginsAndCommits(site, w, rid, Rejecting(id), NoInput);
  }

  // ----- outcomes

  lemma OutcomeBeginsIff(site: Site, w: World, rid: RequestId, id: BookingId, outcome: Status, graceMs: nat)
    requires Free(w, rid) && Exists(w.db, id)
    ensures Enabled(site, w, Begin(rid, Settling(id, outcome, graceMs))) <==>
              && (outcome == Completed || outcome == NoShow)
              && SettleRefusal(w.db.bookings[id], outcome, w.now, graceMs, true).None?
  {
  }

  lemma AcceptedOutcomeIsARun(site: Site, w: World, rid: RequestId, id: BookingId, outcome: Status, graceMs: nat)
    returns (steps: seq<Step>)
    requires Free(w, rid) && Exists(w.db, id) && (outcome == Completed || outcome == NoShow)
    requires SettleRefusal(w.db.bookings[id], outcome, w.now, graceMs, true).None?
    ensures Possible(site, w, steps) && After(site, w, steps) == w.(db := Run(w.db, Settle(id, outcome)))
  {
    steps := BeginsAndCommits(site, w, rid, Settling(id, outcome, graceMs), NoInput);
  }

  // ----- paying

  lemma AcceptedRetryIsARun(site: Site, w: World, rid: RequestId, id: BookingId, session: Session) returns (steps: seq<Step>)
    requires Free(w, rid) && id in w.db.payments && FreshSession(w.db, session)
    requires Exists(w.db, id) && RetryRefusal(w.db.bookings[id], w.now, true).None?
    ensures Possible(site, w, steps) && After(site, w, steps) == w.(db := Run(w.db, Mint(id, session)))
  {
    steps := BeginsAndCommits(site, w, rid, Minting(id), SessionInput(session));
  }

  lemma DeclinedCallbackIsARun(site: Site, w: World, rid: RequestId, id: BookingId, session: Session) returns (steps: seq<Step>)
    requires Free(w, rid) && PaymentIs(w.db, id, Initiated) && session in w.db.payments[id].sessions && Exists(w.db, id)
    ensures Possible(site, w, steps) && After(site, w, steps) == w.(db := Run(w.db, Decline(id, w.db.bookings[id].stake)))
  {
    steps := BeginsAndCommits(site, w, rid, CallingBack(id, session, false), NotVerified(w.db.bookings[id].stake));
  }

  lemma PaymentIsRead(site: Site, w: World, rid: RequestId, id: BookingId, session: Session)
    requires PaymentIs(w.db, id, Initiated)
    ensures var v := Begun(w, rid, Recovering(id, session, None));
            && Enabled(site, v, ReadPayment(rid))
            && Apply(site, v, ReadPayment(rid)) == Begun(w, rid, Recovering(id, session, Some(Initiated)))
  {
    assert w.requests[rid := Recovering(id, session, None)][rid := Recovering(id, session, Some(Initiated))]
        == w.requests[rid := Recovering(id, session, Some(Initiated))];
  }

  lemma RefundIsQueued(site: Site, w: World, rid: RequestId, id: BookingId, session: Session)
    requires rid !in w.requests && PaymentIs(w.db, id, Initiated)
    ensures var v := Begun(w, rid, Recovering(id, session, Some(Initiated)));
            && Enabled(site, v, Commit(rid, NoInput))
            && Apply(site, v, Commit(rid, NoInput)) == w.(db := RefundQueued(w.db, id, session))
  {
    assert w.requests[rid := Recovering(id, session, Some(Initiated))] - {rid} == w.requests;
  }

  lemma LateCaptureRecovers(site: Site, w: World, rid: RequestId, id: BookingId, session: Session) returns (steps: seq<Step>)
    requires rid !in w.requests && PaymentIs(w.db, id, Initiated)
    ensures var v := Begun(w, rid, Recovering(id, session, None));
            Possible(site, v, steps) && After(site, v, steps) == w.(db := RefundQueued(w.db, id, session))
  {
    PaymentIsRead(site, w, rid, id, session);
    RefundIsQueued(site, w, rid, id, session);
    TwoSteps(site, Begun(w, rid, Recovering(id, session, None)), ReadPayment(rid),
             Begun(w, rid, Recovering(id, session, Some(Initiated))), Commit(rid, NoInput));
    steps := [ReadPayment(rid), Commit(rid, NoInput)];
  }

  lemma CaptureFindsNoneWaiting(site: Site, w: World, rid: RequestId, id: BookingId, session: Session)
    requires id in w.db.payments && !Is(w.db, id, PendingPayment)
    ensures var v := Begun(w, rid, CallingBack(id, session, false));
            && Enabled(site, v, Commit(rid, Verified(session)))
            && Apply(site, v, Commit(rid, Verified(session))) == Begun(w, rid, Recovering(id, session, None))
  {
    assert w.requests[rid := CallingBack(id, session, false)][rid := Recovering(id, session, None)]
        == w.requests[rid := Recovering(id, session, None)];
  }

  lemma LateCallbackIsARun(site: Site, w: World, rid: RequestId, id: BookingId, session: Session) returns (steps: seq<Step>)
    requires Free(w, rid) && PaymentIs(w.db, id, Initiated) && session in w.db.payments[id].sessions && !Is(w.db, id, PendingPayment)
    ensures Possible(site, w, steps) && After(site, w, steps) == w.(db := RefundQueued(w.db, id, session))
  {
    var r, capture := CallingBack(id, session, false), Commit(rid, Verified(session));
    CaptureFindsNoneWaiting(site, w, rid, id, session);
    var rest := LateCaptureRecovers(site, w, rid, id, session);
    StepThen(site, Begun(w, rid, r), capture, rest);
    StepThen(site, w, Begin(rid, r), [capture] + rest);
    steps := [Begin(rid, r)] + ([capture] + rest);
  }

  // A verified callback on an open payment confirms the booking that waits for it, and has the money
  // sent back if none does any more.
  lemma VerifiedCallbackIsARun(site: Site, w: World, rid: RequestId, id: BookingId, session: Session) returns (steps: seq<Step>)
    requires Free(w, rid) && PaymentIs(w.db, id, Initiated) && session in w.db.payments[id].sessions
    ensures Possible(site, w, steps) && After(site, w, steps) == w.(db := Run(w.db, ReconcileCapture(id, session)))
  {
    if Is(w.db, id, PendingPayment) {
      steps := BeginsAndCommits(site, w, rid, CallingBack(id, session, false), Verified(session));
    } else {
      steps := LateCallbackIsARun(site, w, rid, id, session);
    }
  }

  // ----- the jobs

  // A reconciliation selects at most two hundred payments still open after twenty minutes, of bookings
  // that no longer wait or whose deadline, if they have one, is past; and only one runs at a time.
  lemma ReconciliationBeginsIff(site: Site, w: World, rid: RequestId, queue: seq<BookingId>)
    requires Free(w, rid)
    ensures Enabled(site, w, Begin(rid, Reconciling(queue, None))) <==>
              && (forall other :: other in w.requests ==> !w.requests[other].Reconciling?)
              && |queue| <= 200 && Distinct(queue)
              && forall i :: 0 <= i < |queue| ==>
                   && PaymentIs(w.db, queue[i], Initiated) && Exists(w.db, queue[i])
                   && w.now - w.db.payments[queue[i]].createdAt > 20 * 60_000
                   && (Is(w.db, queue[i], PendingPayment) && w.db.bookings[queue[i]].paymentDeadline.Some? ==>
                         w.db.bookings[queue[i]].paymentDeadline.value <= w.now)
  {
  }

  lemma UnpaidTickIsARun(site: Site, w: World, rid: RequestId, ids: seq<BookingId>, cutoff: int) returns (steps: seq<Step>)
    requires Free(w, rid) && CanBegin(site, w, ExpiringPayments(ids, w.now, cutoff))
    ensures Possible(site, w, steps) && After(site, w, steps) == w.(db := BatchExpired(w.db, ids, UnpaidBy(w.now, cutoff)))
  {
    steps := BeginsAndCommits(site, w, rid, ExpiringPayments(ids, w.now, cutoff), NoInput);
  }

  lemma UndecidedTickIsARun(site: Site, w: World, rid: RequestId, ids: seq<BookingId>) returns (steps: seq<Step>)
    requires Free(w, rid) && CanBegin(site, w, ExpiringApprovals(ids, w.now))
    ensures Possible(site, w, steps) && After(site, w, steps) == w.(db := BatchExpired(w.db, ids, UndecidedBy(w.now)))
  {
    steps := BeginsAndCommits(site, w, rid, ExpiringApprovals(ids, w.now), NoInput);
  }

  // A tick whose query finds the listed rows due expires them.
  lemma ExpiryTickIsARun(site: Site, w: World, rid: RequestId, ids: seq<BookingId>, due: Due) returns (steps: seq<Step>)
    requires Free(w, rid) && due.at == w.now && |ids| <= 1000 && Distinct(ids)
    requires forall i :: 0 <= i < |ids| ==> Exists(w.db, ids[i]) && IsDue(w.db.bookings[ids[i]], due)
    ensures Possible(site, w, steps) && After(site, w, steps) == w.(db := BatchExpired(w.db, ids, due))
  {
    match due
    case UnpaidBy(_, cutoff) => steps := UnpaidTickIsARun(site, w, rid, ids, cutoff);
    case UndecidedBy(_) => steps := UndecidedTickIsARun(site, w, rid, ids);
  }
}
