/**
 * The cron lock keeps reconciliation runs from overlapping while its lease lasts. A run slower than
 * its lease meets a second one, and then a booking can end up confirmed on a payment that was written
 * off: what a lapse costs, and exactly when.
 */
module LapsedLease {
  import opened Options
  import opened Records
  import opened Transactions
  import opened Schedule
  import opened Protocol
  import opened Evolution
  import opened Requests
  import opened PaymentCoupling
  import opened PaymentFlow
  import opened Runs

  // ----- one transaction

  // A capture recorded for a booking that waits on a payment that is no longer open.
  predicate CapturesUnpaid(db: Tables, t: Txn) {
    (t.Capture? || t.ReconcileCapture?) && Is(db, t.id, PendingPayment) && !PaymentIs(db, t.id, Initiated)
  }

  lemma UnpaidCaptureBreaksCoupling(db: Tables, t: Txn)
    requires Coupling(db) && CapturesUnpaid(db, t)
    ensures !Coupling(Run(db, t))
  {
    CapturedRow(db, t.id, t.session);
    assert Fits(db.bookings[t.id].status, PaymentStatusOf(db, t.id));
    assert !Fits(Run(db, t).bookings[t.id].status, PaymentStatusOf(Run(db, t), t.id));
  }

  // Whatever a transaction is, it keeps the statuses coupled if and only if it is not such a capture.
  lemma RunKeepsCouplingIff(db: Tables, t: Txn)
    requires Legal(t) && Coupling(db) && (t.Recover? ==> Backed(db, t))
    ensures Coupling(Run(db, t)) <==> !CapturesUnpaid(db, t)
  {
    if CapturesUnpaid(db, t) {
      UnpaidCaptureBreaksCoupling(db, t);
    } else {
      RunKeepsCoupling(db, t);
    }
  }

  // ----- runs in which the lease may lapse

  datatype Move = Ordinary(step: Step) | Lapse(rid: RequestId, queue: seq<BookingId>)

  // A lapse lets another reconciliation run select its payments while one is still at work.
  predicate CanMove(site: Site, w: World, m: Move) {
    match m
    case Ordinary(step) => Enabled(site, w, step)
    case Lapse(rid, queue) =>
      && rid !in w.requests && rid !in w.salonLock.Values && |queue| <= RECONCILE_BATCH && Distinct(queue)
      && forall i :: 0 <= i < |queue| ==> Stale(w, queue[i])
  }

  function Moved(site: Site, w: World, m: Move): World
    requires CanMove(site, w, m)
  {
    match m
    case Ordinary(step) => Apply(site, w, step)
    case Lapse(rid, queue) => w.(requests := w.requests[rid := Reconciling(queue, None)])
  }

  predicate CanGo(site: Site, w: World, moves: seq<Move>)
    decreases |moves|
  {
    moves == [] || (CanMove(site, w, moves[0]) && CanGo(site, Moved(site, w, moves[0]), moves[1..]))
  }

  function Went(site: Site, w: World, moves: seq<Move>): World
    requires CanGo(site, w, moves)
    decreases |moves|
  {
    if moves == [] then w else Went(site, Moved(site, w, moves[0]), moves[1..])
  }

  predicate MovesUnpaid(site: Site, w: World, m: Move)
    requires CanMove(site, w, m)
  {
    m.Ordinary? && Commits(site, w, m.step).Some? && CapturesUnpaid(w.db, Commits(site, w, m.step).value)
  }

  predicate NeverCapturesUnpaid(site: Site, w: World, moves: seq<Move>)
    requires CanGo(site, w, moves)
    decreases |moves|
  {
    moves == [] || (!MovesUnpaid(site, w, moves[0]) && NeverCapturesUnpaid(site, Moved(site, w, moves[0]), moves[1..]))
  }

  predicate CoupledThroughout(site: Site, w: World, moves: seq<Move>)
    requires CanGo(site, w, moves)
    decreases |moves|
  {
    Coupling(w.db) && (moves == [] || CoupledThroughout(site, Moved(site, w, moves[0]), moves[1..]))
  }

  // ----- what still holds of the others

  // Everybody but the reconciliations may rely on what he read.
  predicate OthersSound(w: World) {
    && SessionsNamed(w.db) && DeadlinesStamped(w.db)
    && forall rid :: rid in w.requests && !w.requests[rid].Reconciling? ==> PaymentFact(w.db, w.now, w.requests[rid])
  }

  lemma OnlyReconciliationsCaptureUnpaid(site: Site, w: World, step: Step)
    requires OthersSound(w) && Enabled(site, w, step) && Commits(site, w, step).Some?
    ensures Commits(site, w, step).value.Recover? ==> Backed(w.db, Commits(site, w, step).value)
    ensures CapturesUnpaid(w.db, Commits(site, w, step).value) ==> step.Commit? && w.requests[step.rid].Reconciling?
  {
    if step.Commit? && !w.requests[step.rid].Reconciling? {
      assert PaymentFact(w.db, w.now, w.requests[step.rid]);
    }
  }

  lemma OthersStaySound(site: Site, w: World, step: Step, rid: RequestId)
    requires Sound(w) && Coupling(w.db) && OthersSound(w) && Enabled(site, w, step) && Actor(step) != Some(rid)
    requires rid in w.requests && !w.requests[rid].Reconciling?
    requires Commits(site, w, step).Some? ==> Backed(w.db, Commits(site, w, step).value)
    ensures PaymentFact(Apply(site, w, step).db, Apply(site, w, step).now, w.requests[rid])
  {
    assert PaymentFact(w.db, w.now, w.requests[rid]);
    DbChangesByTxn(site, w, step);
    CommitIsLegal(site, w, step);
    if Commits(site, w, step).Some? {
      FactSurvives(w.db, Apply(site, w, step).db, Commits(site, w, step).value, w.now, w.requests[rid]);
    }
  }

  lemma ActorStaysReconciling(site: Site, w: World, step: Step)
    requires Enabled(site, w, step) && Actor(step).Some? && step.rid in w.requests && w.requests[step.rid].Reconciling?
    ensures step.rid in Apply(site, w, step).requests ==> Apply(site, w, step).requests[step.rid].Reconciling?
  {
  }

  lemma ActorStaysFactual(site: Site, w: World, step: Step)
    requires Coupling(w.db) && OthersSound(w) && Enabled(site, w, step) && Actor(step).Some?
    requires step.rid in w.requests ==> !w.requests[step.rid].Reconciling?
    ensures FactAt(Apply(site, w, step), step.rid)
  {
    assert FactAt(w, step.rid);
    if step.Commit? {
      RemainderHasFact(site, w, step.rid, step.late);
    } else if step.Begin? {
      StarterHasFact(site, w, step);
    } else if Watches(step) {
      WatcherHasFact(site, w, step);
    } else if step.CommitInvalid? || step.Abort? || step.Unlock? {
      LeaverHasFact(site, w, step);
    } else {
      PlacerHasFact(site, w, step);
    }
  }

  lemma StepKeepsOthersSound(site: Site, w: World, step: Step)
    requires Sound(w) && Coupling(w.db) && OthersSound(w) && Enabled(site, w, step)
    requires Commits(site, w, step).Some? ==> Backed(w.db, Commits(site, w, step).value)
    ensures OthersSound(Apply(site, w, step))
  {
    var w' := Apply(site, w, step);
    DbChangesByTxn(site, w, step);
    CommitIsLegal(site, w, step);
    if Commits(site, w, step).Some? {
      RunNamesSessions(w.db, Commits(site, w, step).value);
      RunStamps(w.db, Commits(site, w, step).value);
    }
    forall rid | rid in w'.requests && !w'.requests[rid].Reconciling?
      ensures PaymentFact(w'.db, w'.now, w'.requests[rid])
    {
      if Actor(step) != Some(rid) {
        OthersWait(site, w, step, rid);
        OthersStaySound(site, w, step, rid);
      } else if rid in w.requests && w.requests[rid].Reconciling? {
        ActorStaysReconciling(site, w, step);
      } else {
        ActorStaysFactual(site, w, step);
      }
    }
  }

  lemma LapseKeepsSound(site: Site, w: World, m: Move)
    requires Sound(w) && OthersSound(w) && m.Lapse? && CanMove(site, w, m)
    ensures Sound(Moved(site, w, m)) && OthersSound(Moved(site, w, m))
  {
    var w' := Moved(site, w, m);
    forall rid | rid in w'.requests
      ensures SoundRequest(w'.db, w'.requests[rid]) && HoldsLocks(w', rid, w'.requests[rid])
      ensures !w'.requests[rid].Reconciling? ==> PaymentFact(w'.db, w'.now, w'.requests[rid])
    {
      if rid != m.rid {
        assert SoundRequest(w.db, w.requests[rid]) && HoldsLocks(w, rid, w.requests[rid]);
      }
    }
  }

  lemma MoveKeepsSoundIff(site: Site, w: World, m: Move)
    requires Sound(w) && Coupling(w.db) && OthersSound(w) && CanMove(site, w, m)
    ensures Coupling(Moved(site, w, m).db) <==> !MovesUnpaid(site, w, m)
    ensures Coupling(Moved(site, w, m).db) ==> Sound(Moved(site, w, m)) && OthersSound(Moved(site, w, m))
  {
    match m
    case Lapse(_, _) => LapseKeepsSound(site, w, m);
    case Ordinary(step) =>
      DbChangesByTxn(site, w, step);
      CommitIsLegal(site, w, step);
      StepStaysSound(site, w, step);
      if Commits(site, w, step).Some? {
        OnlyReconciliationsCaptureUnpaid(site, w, step);
        RunKeepsCouplingIff(w.db, Commits(site, w, step).value);
      }
      if !MovesUnpaid(site, w, m) {
        StepKeepsOthersSound(site, w, step);
      }
  }

  lemma {:induction false} CoupledIff(site: Site, w: World, moves: seq<Move>)
    requires Sound(w) && Coupling(w.db) && OthersSound(w) && CanGo(site, w, moves)
    ensures CoupledThroughout(site, w, moves) <==> NeverCapturesUnpaid(site, w, moves)
    decreases |moves|
  {
    if moves == [] {
    } else {
      MoveKeepsSoundIff(site, w, moves[0]);
      if Coupling(Moved(site, w, moves[0]).db) {
        CoupledIff(site, Moved(site, w, moves[0]), moves[1..]);
      }
    }
  }

  // With a lease that may lapse at any time, bookings and payments stay coupled in every state of a run
  // if and only if no reconciliation captures for a booking still waiting on a payment already closed.
  lemma LapsesKeepCouplingIff(site: Site, w: World, moves: seq<Move>)
    requires Init(w) && CanGo(site, w, moves)
    ensures CoupledThroughout(site, w, moves) <==> NeverCapturesUnpaid(site, w, moves)
  {
    CoupledIff(site, w, moves);
  }
}
