/**
 * A capture on a dead booking is refunded by a read of the payment and an update guarded on the
 * status read. Somebody else may settle the payment in between: then the update does nothing, and
 * if what overtook it was a write-off, verified money stays on a failed payment. This is exactly when.
 */
module Recoveries {
  import opened Options
  import opened Records
  import opened Transactions
  import opened Schedule
  import opened Protocol
  import opened Evolution
  import opened Requests
  import opened PaymentCoupling
  import opened PaymentFlow
  import opened Forfeiture
  import opened Runs
  import opened SessionLedger
  import opened DeclinedHolds

  predicate StatusMoves(site: Site, w: World, step: Step, id: BookingId)
    requires Enabled(site, w, step)
  {
    PaymentStatusOf(Apply(site, w, step).db, id) != PaymentStatusOf(w.db, id)
  }

  predicate NeverSettled(site: Site, w: World, steps: seq<Step>, id: BookingId)
    requires Possible(site, w, steps)
    decreases |steps|
  {
    steps == [] || (!StatusMoves(site, w, steps[0], id) && NeverSettled(site, Apply(site, w, steps[0]), steps[1..], id))
  }

  // How far a payment is; no step takes it back.
  function Progress(p: PaymentStatus): nat {
    match p
    case Initiated => 0
    case Failed => 1
    case Paid => 1
    case RefundPending => 2
    case Refunded => 3
  }

  lemma StepProgresses(site: Site, w: World, step: Step, id: BookingId)
    requires Sound(w) && MoneySound(w) && Enabled(site, w, step) && id in w.db.payments
    ensures id in Apply(site, w, step).db.payments
    ensures var p, p' := w.db.payments[id].status, Apply(site, w, step).db.payments[id].status;
            p == p' || Progress(p) < Progress(p')
  {
    DbChangesByTxn(site, w, step);
    CommitIsLegal(site, w, step);
    if Commits(site, w, step).Some? {
      RunMovesPayments(w.db, Commits(site, w, step).value, id);
    }
  }

  lemma {:induction false} RunProgresses(site: Site, w: World, steps: seq<Step>, id: BookingId)
    requires Sound(w) && MoneySound(w) && Possible(site, w, steps) && id in w.db.payments
    ensures id in After(site, w, steps).db.payments
    ensures var p, p' := w.db.payments[id].status, After(site, w, steps).db.payments[id].status;
            && Progress(p) <= Progress(p') && (p == p' <==> NeverSettled(site, w, steps, id))
            && (p == p' || Progress(p) < Progress(p'))
    decreases |steps|
  {
    if steps == [] {
    } else {
      StepStaysSound(site, w, steps[0]);
      StepKeepsMoney(site, w, steps[0]);
      StepProgresses(site, w, steps[0], id);
      RunProgresses(site, Apply(site, w, steps[0]), steps[1..], id);
    }
  }

  // ----- when the refund is queued

  predicate HasRead(w: World, rid: RequestId, id: BookingId, session: Session, status: PaymentStatus) {
    rid in w.requests && w.requests[rid] == Recovering(id, session, Some(status))
  }

  lemma RecoveryCommits(site: Site, w: World, rid: RequestId, id: BookingId, session: Session, status: PaymentStatus)
    requires HasRead(w, rid, id, session, status) && (status == Initiated || status == Failed)
    ensures Enabled(site, w, Commit(rid, NoInput))
    ensures Apply(site, w, Commit(rid, NoInput)).db == if PaymentIs(w.db, id, status) then RefundQueued(w.db, id, session) else w.db
  {
    DbChangesByTxn(site, w, Commit(rid, NoInput));
  }

  lemma OvertakenRefundsOrFails(site: Site, w: World, steps: seq<Step>, id: BookingId, status: PaymentStatus)
    requires Sound(w) && MoneySound(w) && Possible(site, w, steps) && MoneySound(After(site, w, steps))
    requires PaymentIs(w.db, id, status) && id in After(site, w, steps).db.payments
    requires (status == Initiated && !Is(w.db, id, PendingPayment)) || status == Failed
    requires Progress(status) < Progress(After(site, w, steps).db.payments[id].status)
    ensures var db := After(site, w, steps).db; Refunding(db, id) || (status == Initiated && PaymentIs(db, id, Failed))
  {
    var db := After(site, w, steps).db;
    assert Fits(w.db.bookings[id].status, PaymentStatusOf(w.db, id));
    if status == Initiated {
      HistoryIsFinal(site, w, steps, id);
      assert Fits(db.bookings[id].status, PaymentStatusOf(db, id));
    }
  }

  // Between its read and its update anything may commit. The update queues the refund if and only if
  // nothing has moved the payment since, and otherwise changes nothing: then the refund is queued
  // already, or the payment was written off meanwhile, and only another callback of it helps.
  lemma RecoveryQueuesIff(site: Site, w: World, steps: seq<Step>, rid: RequestId, id: BookingId, session: Session,
                          status: PaymentStatus)
    requires Sound(w) && MoneySound(w) && Possible(site, w, steps)
    requires HasRead(w, rid, id, session, status) && PaymentIs(w.db, id, status) && (status == Initiated || status == Failed)
    requires HasRead(After(site, w, steps), rid, id, session, status)
    ensures var w' := After(site, w, steps);
            && Enabled(site, w', Commit(rid, NoInput)) && id in w'.db.payments
            && Apply(site, w', Commit(rid, NoInput)).db ==
                 (if NeverSettled(site, w, steps, id) then RefundQueued(w'.db, id, session) else w'.db)
            && (!NeverSettled(site, w, steps, id) ==>
                  Refunding(w'.db, id) || (status == Initiated && PaymentIs(w'.db, id, Failed)))
  {
    var w' := After(site, w, steps);
    MoneyKept(site, w, steps);
    RunProgresses(site, w, steps, id);
    RecoveryCommits(site, w', rid, id, session, status);
    assert PaymentFact(w.db, w.now, w.requests[rid]);
    if !NeverSettled(site, w, steps, id) {
      OvertakenRefundsOrFails(site, w, steps, id, status);
    }
  }

  // ----- how it is overtaken

  // The booking expired while two sessions were open. The callback of the paid one finds it gone
  // and reads the payment; before it updates, the refused one's decline writes the payment off.
  lemma PaidReads(site: Site, w: World, id: BookingId, paid: Session, refused: Session, payer: RequestId, decliner: RequestId)
    returns (steps: seq<Step>)
    requires Is(w.db, id, Expired) && PaymentIs(w.db, id, Initiated) && payer != decliner
    ensures var v := WithCalls(w, id, paid, refused, payer, decliner);
            && Possible(site, v, steps)
            && After(site, v, steps) == v.(requests := v.requests[payer := Recovering(id, paid, Some(Initiated))])
  {
    var v := WithCalls(w, id, paid, refused, payer, decliner);
    var pay, read := Commit(payer, Verified(paid)), ReadPayment(payer);
    var recovering := v.(requests := v.requests[payer := Recovering(id, paid, None)]);
    assert CommitDb(site, v, payer, Verified(paid)) == v.db;
    assert Apply(site, v, pay) == recovering;
    ReadsInitiated(site, v, recovering, id, paid, payer);
    TwoSteps(site, v, pay, recovering, read);
    steps := [pay, read];
  }

  lemma ReadsInitiated(site: Site, v: World, recovering: World, id: BookingId, paid: Session, payer: RequestId)
    requires recovering == v.(requests := v.requests[payer := Recovering(id, paid, None)]) && PaymentIs(v.db, id, Initiated)
    ensures Enabled(site, recovering, ReadPayment(payer))
    ensures Apply(site, recovering, ReadPayment(payer)) == v.(requests := v.requests[payer := Recovering(id, paid, Some(Initiated))])
  {
    assert recovering.requests[payer := Recovering(id, paid, Some(Initiated))] == v.requests[payer := Recovering(id, paid, Some(Initiated))];
  }

  lemma DeclineOvertakes(site: Site, w: World, id: BookingId, paid: Session, refused: Session, payer: RequestId, decliner: RequestId)
    requires HasRead(w, payer, id, paid, Initiated) && PaymentIs(w.db, id, Initiated) && payer != decliner
    requires decliner in w.requests && w.requests[decliner] == CallingBack(id, refused, false)
    ensures var refuse := Commit(decliner, NotVerified(0));
            && Enabled(site, w, refuse)
            && HasRead(Apply(site, w, refuse), payer, id, paid, Initiated)
            && PaymentIs(Apply(site, w, refuse).db, id, Failed)
  {
    var refuse := Commit(decliner, NotVerified(0));
    OthersWait(site, w, refuse, payer);
    DeclineCommitsFailed(site, w, id, refused, decliner);
  }

  lemma DeclineCommitsFailed(site: Site, w: World, id: BookingId, refused: Session, decliner: RequestId)
    requires PaymentIs(w.db, id, Initiated) && decliner in w.requests && w.requests[decliner] == CallingBack(id, refused, false)
    ensures var refuse := Commit(decliner, NotVerified(0));
            Enabled(site, w, refuse) && PaymentIs(Apply(site, w, refuse).db, id, Failed)
  {
    DbChangesByTxn(site, w, Commit(decliner, NotVerified(0)));
    assert CommitDb(site, w, decliner, NotVerified(0)) == Declined(w.db, id, 0);
    DeclinedRow(w.db, id, 0);
  }

  lemma DeclineThenNothing(site: Site, w: World, id: BookingId, paid: Session, refused: Session, payer: RequestId, decliner: RequestId)
    returns (steps: seq<Step>)
    requires HasRead(w, payer, id, paid, Initiated) && PaymentIs(w.db, id, Initiated) && payer != decliner
    requires decliner in w.requests && w.requests[decliner] == CallingBack(id, refused, false)
    ensures Possible(site, w, steps) && PaymentIs(After(site, w, steps).db, id, Failed)
  {
    var refuse, update := Commit(decliner, NotVerified(0)), Commit(payer, NoInput);
    var w' := Apply(site, w, refuse);
    DeclineOvertakes(site, w, id, paid, refused, payer, decliner);
    RecoveryCommits(site, w', payer, id, paid, Initiated);
    TwoSteps(site, w, refuse, w', update);
    steps := [refuse, update];
  }

  lemma OvertakenRecoveryLeavesFailed(site: Site, w: World, id: BookingId, paid: Session, refused: Session,
                                      payer: RequestId, decliner: RequestId) returns (steps: seq<Step>)
    requires Is(w.db, id, Expired) && PaymentIs(w.db, id, Initiated)
    requires paid in w.db.payments[id].sessions && refused in w.db.payments[id].sessions
    requires payer != decliner && payer !in w.requests && decliner !in w.requests
    requires payer !in w.salonLock.Values && decliner !in w.salonLock.Values
    ensures Possible(site, w, steps) && PaymentIs(After(site, w, steps).db, id, Failed)
  {
    steps := BothCallBack(site, w, id, paid, refused, payer, decliner);
    var upToRead := PaidReads(site, w, id, paid, refused, payer, decliner);
    RunThen(site, w, steps, upToRead);
    steps := steps + upToRead;
    var rest := DeclineThenNothing(site, After(site, w, steps), id, paid, refused, payer, decliner);
    RunThen(site, w, steps, rest);
    steps := steps + rest;
  }
}
