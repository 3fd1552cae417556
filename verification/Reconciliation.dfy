/** One run of payment-reconciliation.job.ts over the stale payments it selected. */
module Reconciliation {
  import opened Options
  import opened Records
  import opened Transactions
  import opened Evolution
  import opened Schedule
  import opened Protocol
  import opened PaymentFlow
  import opened SessionLedger
  import opened Store

  // The gateway's answer for one session; a verification may also fail to answer.
  datatype Verdict = Paying | NotPaying | Unanswered

  datatype Verification = Found(session: Session) | AllDeclined | Unknown

  // ----- loadAuthorities and verifyAny

  function Newest(sessions: seq<Session>): (r: seq<Session>)
    ensures |r| == |sessions|
  {
    if sessions == [] then [] else [sessions[|sessions| - 1]] + Newest(sessions[..|sessions| - 1])
  }

  // Every session ever issued, newest first, with the current one folded in.
  function Authorities(p: Payment): seq<Session> {
    var ledger := Newest(p.sessions);
    if p.authority.Some? && p.authority.value !in ledger then [p.authority.value] + ledger else ledger
  }

  lemma {:induction false} NewestKeepsAll(sessions: seq<Session>)
    ensures forall s :: s in Newest(sessions) <==> s in sessions
  {
    if sessions == [] {
    } else {
      NewestKeepsAll(sessions[..|sessions| - 1]);
      assert forall s :: s in sessions <==> s == sessions[|sessions| - 1] || s in sessions[..|sessions| - 1];
    }
  }

  lemma {:induction false} NewestReverses(sessions: seq<Session>, k: nat)
    requires k < |sessions|
    ensures Newest(sessions)[k] == sessions[|sessions| - 1 - k]
  {
    if k > 0 {
      NewestReverses(sessions[..|sessions| - 1], k - 1);
    }
  }

  predicate Issued(p: Payment, s: Session) {
    s in p.sessions || p.authority == Some(s)
  }

  lemma AuthoritiesAreTheIssued(p: Payment)
    ensures forall s :: s in Authorities(p) <==> Issued(p, s)
  {
    NewestKeepsAll(p.sessions);
  }

  // The first session that pays settles it; one that does not answer leaves everything open.
  function Verify(gateway: Session -> Verdict, authorities: seq<Session>): Verification {
    if authorities == [] then AllDeclined
    else match gateway(authorities[0])
      case Paying => Found(authorities[0])
      case NotPaying => Verify(gateway, authorities[1..])
      case Unanswered => Unknown
  }

  predicate AllRefusedBefore(gateway: Session -> Verdict, authorities: seq<Session>, i: nat)
    requires i <= |authorities|
  {
    forall j :: 0 <= j < i ==> gateway(authorities[j]) == NotPaying
  }

  // v is the answer of the first session that was not refused.
  ghost predicate IsFirstAnswer(gateway: Session -> Verdict, authorities: seq<Session>, v: Verification) {
    match v
    case Found(s) =>
      exists i :: 0 <= i < |authorities| && AllRefusedBefore(gateway, authorities, i) && authorities[i] == s && gateway(s) == Paying
    case AllDeclined => AllRefusedBefore(gateway, authorities, |authorities|)
    case Unknown =>
      exists i :: 0 <= i < |authorities| && AllRefusedBefore(gateway, authorities, i) && gateway(authorities[i]) == Unanswered
  }

  lemma {:induction false} VerifyMeans(gateway: Session -> Verdict, authorities: seq<Session>)
    ensures IsFirstAnswer(gateway, authorities, Verify(gateway, authorities))
  {
    if authorities == [] {
    } else if gateway(authorities[0]).NotPaying? {
      var rest := authorities[1..];
      VerifyMeans(gateway, rest);
      var v := Verify(gateway, rest);
      if !v.AllDeclined? {
        var i :| 0 <= i < |rest| && AllRefusedBefore(gateway, rest, i)
                 && if v.Found? then rest[i] == v.session && gateway(v.session) == Paying else gateway(rest[i]) == Unanswered;
        assert authorities[i + 1] == rest[i];
        assert forall j :: 0 < j < i + 1 ==> authorities[j] == rest[j - 1];
        assert AllRefusedBefore(gateway, authorities, i + 1);
      } else {
        assert forall j :: 0 < j < |authorities| ==> authorities[j] == rest[j - 1];
      }
    } else {
      assert AllRefusedBefore(gateway, authorities, 0);
    }
  }

  method VerifyAny(gateway: Session -> Verdict, authorities: seq<Session>) returns (v: Verification)
    ensures v == Verify(gateway, authorities) && IsFirstAnswer(gateway, authorities, v)
  {
    VerifyMeans(gateway, authorities);
    var i := 0;
    while i < |authorities|
      invariant 0 <= i <= |authorities|
      invariant Verify(gateway, authorities) == Verify(gateway, authorities[i..])
    {
      match gateway(authorities[i]) {
        case Paying => return Found(authorities[i]);
        case NotPaying => assert authorities[i..][1..] == authorities[i + 1..];
        case Unanswered => return Unknown;
      }
      i := i + 1;
    }
    return AllDeclined;
  }

  // ----- one payment, and the batch

  function Decision(db: Tables, gateway: Session -> Verdict, id: BookingId): Option<Txn>
    requires id in db.payments && Exists(db, id)
  {
    var authorities := Authorities(db.payments[id]);
    if authorities == [] then Some(Retire(id))
    else match Verify(gateway, authorities)
      case Found(s) => Some(ReconcileCapture(id, s))
      case AllDeclined => Some(Decline(id, db.bookings[id].stake))
      case Unknown => None
  }

  function Reconciled(db: Tables, gateway: Session -> Verdict, queue: seq<BookingId>): Tables {
    if queue == [] then db
    else
      var rest := Reconciled(db, gateway, queue[..|queue| - 1]);
      var id := queue[|queue| - 1];
      if id in rest.payments && Exists(rest, id) && Decision(rest, gateway, id).Some?
      then Run(rest, Decision(rest, gateway, id).value)
      else rest
  }

  // What run() returns: the payments it settled, not the ones it only looked at.
  function SettledCount(db: Tables, gateway: Session -> Verdict, queue: seq<BookingId>): nat {
    if queue == [] then 0
    else
      var rest := Reconciled(db, gateway, queue[..|queue| - 1]);
      var id := queue[|queue| - 1];
      var settles := id in rest.payments && Exists(rest, id) && Decision(rest, gateway, id).Some?
                     && (Decision(rest, gateway, id).value.Retire? ==> PaymentIs(rest, id, Initiated));
      SettledCount(db, gateway, queue[..|queue| - 1]) + if settles then 1 else 0
  }

  // One turn of the loop: whether it settled the payment, and the tables it leaves.
  method ReconcileOne(store: BookingStore, gateway: Session -> Verdict, id: BookingId) returns (settled: bool)
    modifies store
    ensures var db := old(store.View());
            var decided := id in db.payments && Exists(db, id) && Decision(db, gateway, id).Some?;
            && store.View() == (if decided then Run(db, Decision(db, gateway, id).value) else db)
            && (settled <==> decided && (Decision(db, gateway, id).value.Retire? ==> PaymentIs(db, id, Initiated)))
  {
    if id !in store.payments || id >= |store.bookings| { return false; }
    var authorities := Authorities(store.payments[id]);
    if authorities == [] {
      settled := store.RetirePayment(id);
    } else {
      var v := VerifyAny(gateway, authorities);
      settled := !v.Unknown?;
      match v
      case Found(s) => store.RecordCapture(id, s);
      case AllDeclined => store.RecordDecline(id);
      case Unknown =>
    }
  }

  method Reconcile(store: BookingStore, gateway: Session -> Verdict, queue: seq<BookingId>) returns (reconciled: nat)
    modifies store
    ensures store.View() == Reconciled(old(store.View()), gateway, queue)
    ensures reconciled == SettledCount(old(store.View()), gateway, queue)
  {
    reconciled := 0;
    var i := 0;
    while i < |queue|
      invariant 0 <= i <= |queue|
      invariant store.View() == Reconciled(old(store.View()), gateway, queue[..i])
      invariant reconciled == SettledCount(old(store.View()), gateway, queue[..i])
    {
      assert queue[..i + 1][..i] == queue[..i];
      var settled := ReconcileOne(store, gateway, queue[i]);
      if settled { reconciled := reconciled + 1; }
      i := i + 1;
    }
    assert queue[..i] == queue;
  }

  // ----- what a run settles

  // A payment in the batch is left alone until its turn, and afterwards.
  lemma {:induction false} OthersUntouched(db: Tables, gateway: Session -> Verdict, queue: seq<BookingId>, id: BookingId)
    requires id !in queue && id in db.payments && Exists(db, id)
    ensures var db' := Reconciled(db, gateway, queue);
            id in db'.payments && db'.payments[id] == db.payments[id] && Exists(db', id) && db'.bookings[id] == db.bookings[id]
  {
    if queue == [] {
    } else {
      var init, last := queue[..|queue| - 1], queue[|queue| - 1];
      assert id !in init && id != last;
      OthersUntouched(db, gateway, init, id);
      OneMoreLeavesAlone(db, gateway, init, last, id);
      assert queue == init + [last];
    }
  }

  // Settling one more payment changes nothing of another booking.
  lemma OneMoreLeavesAlone(db: Tables, gateway: Session -> Verdict, queue: seq<BookingId>, last: BookingId, id: BookingId)
    requires id != last
    ensures var rest, db' := Reconciled(db, gateway, queue), Reconciled(db, gateway, queue + [last]);
            && (Exists(db', id) <==> Exists(rest, id)) && (Exists(rest, id) ==> db'.bookings[id] == rest.bookings[id])
            && (id in db'.payments <==> id in rest.payments) && (id in rest.payments ==> db'.payments[id] == rest.payments[id])
  {
    assert (queue + [last])[..|queue|] == queue;
    var rest := Reconciled(db, gateway, queue);
    if last in rest.payments && Exists(rest, last) && Decision(rest, gateway, last).Some? {
      RunWritesRow(rest, Decision(rest, gateway, last).value);
      RunWritesPayment(rest, Decision(rest, gateway, last).value);
    }
  }

  predicate SettledAs(db: Tables, db': Tables, id: BookingId, v: Verification, hadSessions: bool) {
    && id in db'.payments && Exists(db', id)
    && match v
       case Found(s) =>
         && db'.payments[id].authority == Some(s)
         && (if Is(db, id, PendingPayment) then Is(db', id, Confirmed) && PaymentIs(db', id, Paid) else PaymentIs(db', id, RefundPending))
       case AllDeclined =>
         && PaymentIs(db', id, Failed)
         && (Is(db, id, PendingPayment) && hadSessions ==> Is(db', id, CancelledByUser))
       case Unknown => PaymentIs(db', id, Initiated)
  }

  lemma OneSettles(db: Tables, gateway: Session -> Verdict, id: BookingId)
    requires PaymentIs(db, id, Initiated) && Exists(db, id)
    ensures var d := Decision(db, gateway, id);
            var authorities := Authorities(db.payments[id]);
            SettledAs(db, if d.Some? then Run(db, d.value) else db, id, Verify(gateway, authorities), authorities != [])
  {
    var d := Decision(db, gateway, id);
    if d.Some? && d.value.Decline? {
      DeclinedRow(db, id, db.bookings[id].stake);
    }
    if d.Some? && d.value.ReconcileCapture? && Is(db, id, PendingPayment) {
      CapturedRow(db, id, d.value.session);
    }
  }

  lemma LastSettles(db: Tables, gateway: Session -> Verdict, queue: seq<BookingId>, id: BookingId)
    requires id !in queue && PaymentIs(db, id, Initiated) && Exists(db, id)
    ensures var authorities := Authorities(db.payments[id]);
            SettledAs(db, Reconciled(db, gateway, queue + [id]), id, Verify(gateway, authorities), authorities != [])
  {
    OthersUntouched(db, gateway, queue, id);
    OneSettles(Reconciled(db, gateway, queue), gateway, id);
    assert (queue + [id])[..|queue|] == queue;
  }

  lemma SettledStays(db: Tables, rest: Tables, db': Tables, id: BookingId, gateway: Session -> Verdict)
    requires id in db.payments && Exists(rest, id) && id in rest.payments && Exists(db', id) && id in db'.payments
    requires db'.bookings[id] == rest.bookings[id] && db'.payments[id] == rest.payments[id]
    ensures var authorities := Authorities(db.payments[id]);
            SettledAs(db, rest, id, Verify(gateway, authorities), authorities != []) ==>
              SettledAs(db, db', id, Verify(gateway, authorities), authorities != [])
  {
  }

  // Every payment of the batch leaves it settled as its own sessions were answered, whatever
  // else was in the batch; only an unanswered one is left for the next run.
  lemma {:induction false} BatchSettles(db: Tables, gateway: Session -> Verdict, queue: seq<BookingId>, id: BookingId)
    requires Distinct(queue) && id in queue && PaymentIs(db, id, Initiated) && Exists(db, id)
    ensures var authorities := Authorities(db.payments[id]);
            SettledAs(db, Reconciled(db, gateway, queue), id, Verify(gateway, authorities), authorities != [])
  {
    var init, last := queue[..|queue| - 1], queue[|queue| - 1];
    assert queue == init + [last];
    if id == last {
      LastSettles(db, gateway, init, id);
    } else {
      BatchSettles(db, gateway, init, id);
      OneMoreLeavesAlone(db, gateway, init, last, id);
      SettledStays(db, Reconciled(db, gateway, init), Reconciled(db, gateway, queue), id, gateway);
    }
  }

  predicate AllOpen(db: Tables, queue: seq<BookingId>) {
    forall i :: 0 <= i < |queue| ==> PaymentIs(db, queue[i], Initiated) && Exists(db, queue[i])
  }

  function NoLongerOpen(db: Tables, queue: seq<BookingId>): set<BookingId> {
    set id | id in queue && !PaymentIs(db, id, Initiated)
  }

  // What the job reports is how many of the open payments it selected it did settle.
  lemma {:induction false} CountsTheSettled(db: Tables, gateway: Session -> Verdict, queue: seq<BookingId>)
    requires Distinct(queue) && AllOpen(db, queue)
    ensures SettledCount(db, gateway, queue) == |NoLongerOpen(Reconciled(db, gateway, queue), queue)|
  {
    if queue == [] {
      assert NoLongerOpen(db, queue) == {};
    } else {
      var init, last := queue[..|queue| - 1], queue[|queue| - 1];
      assert forall i :: 0 <= i < |init| ==> init[i] == queue[i];
      CountsTheSettled(db, gateway, init);
      assert queue == init + [last] && queue[|queue| - 1] == last;
      OneMoreCounts(db, gateway, init, last);
    }
  }

  lemma OneMoreCounts(db: Tables, gateway: Session -> Verdict, queue: seq<BookingId>, last: BookingId)
    requires last !in queue && PaymentIs(db, last, Initiated) && Exists(db, last)
    ensures var more := queue + [last];
            SettledCount(db, gateway, more) - SettledCount(db, gateway, queue)
            == |NoLongerOpen(Reconciled(db, gateway, more), more)| - |NoLongerOpen(Reconciled(db, gateway, queue), queue)|
  {
    LastCounts(db, gateway, queue, last);
    OthersStayAsTheyWere(db, gateway, queue, last);
    OneMoreClosed(Reconciled(db, gateway, queue), Reconciled(db, gateway, queue + [last]), queue, last);
  }

  lemma OneMoreClosed(db: Tables, db': Tables, queue: seq<BookingId>, last: BookingId)
    requires last !in queue && forall id :: id in queue ==> (PaymentIs(db', id, Initiated) <==> PaymentIs(db, id, Initiated))
    ensures |NoLongerOpen(db', queue + [last])| == |NoLongerOpen(db, queue)| + if PaymentIs(db', last, Initiated) then 0 else 1
  {
    var before, after := NoLongerOpen(db, queue), NoLongerOpen(db', queue + [last]);
    if PaymentIs(db', last, Initiated) {
      assert after == before;
    } else {
      assert after == before + {last};
    }
  }

  lemma OthersStayAsTheyWere(db: Tables, gateway: Session -> Verdict, queue: seq<BookingId>, last: BookingId)
    requires last !in queue
    ensures forall id :: id in queue ==>
              (PaymentIs(Reconciled(db, gateway, queue + [last]), id, Initiated) <==> PaymentIs(Reconciled(db, gateway, queue), id, Initiated))
  {
    forall id | id in queue
      ensures PaymentIs(Reconciled(db, gateway, queue + [last]), id, Initiated) <==> PaymentIs(Reconciled(db, gateway, queue), id, Initiated)
    {
      OneMoreLeavesAlone(db, gateway, queue, last, id);
    }
  }

  lemma LastCounts(db: Tables, gateway: Session -> Verdict, queue: seq<BookingId>, id: BookingId)
    requires id !in queue && PaymentIs(db, id, Initiated) && Exists(db, id)
    ensures SettledCount(db, gateway, queue + [id])
            == SettledCount(db, gateway, queue) + if PaymentIs(Reconciled(db, gateway, queue + [id]), id, Initiated) then 0 else 1
  {
    OthersUntouched(db, gateway, queue, id);
    LastSettles(db, gateway, queue, id);
    assert (queue + [id])[..|queue|] == queue;
  }

  // In a run that nothing disturbs, money captured through any session ever issued, superseded ones
  // included, ends as a paid deposit on a confirmed booking or on its way back, never as a failed
  // payment.
  lemma CaptureIsNeverWrittenOff(db: Tables, gateway: Session -> Verdict, queue: seq<BookingId>, id: BookingId, s: Session)
    requires Distinct(queue) && id in queue && PaymentIs(db, id, Initiated) && Exists(db, id)
    requires Issued(db.payments[id], s) && gateway(s) == Paying
    requires forall t :: Issued(db.payments[id], t) ==> gateway(t) != Unanswered
    ensures var db' := Reconciled(db, gateway, queue);
            (Is(db', id, Confirmed) && PaymentIs(db', id, Paid)) || PaymentIs(db', id, RefundPending)
  {
    AuthoritiesAreTheIssued(db.payments[id]);
    VerifyMeans(gateway, Authorities(db.payments[id]));
    assert s in Authorities(db.payments[id]);
    BatchSettles(db, gateway, queue, id);
  }

  // ----- the same run, seen from the step system

  // What the job makes of the gateway's answers for the sessions it loaded; nothing while one
  // does not answer.
  function Answer(db: Tables, gateway: Session -> Verdict, id: BookingId, loaded: seq<Session>): Option<Late>
    requires Exists(db, id)
  {
    if loaded == [] then Some(NoInput)
    else match Verify(gateway, Newest(loaded))
      case Found(s) => Some(Verified(s))
      case AllDeclined => Some(NotVerified(db.bookings[id].stake))
      case Unknown => None
  }

  predicate AtPayment(w: World, rid: RequestId) {
    && rid in w.requests && w.requests[rid].Reconciling? && w.requests[rid].loaded.Some?
    && w.requests[rid].queue != [] && w.requests[rid].queue[0] in w.db.payments && Exists(w.db, w.requests[rid].queue[0])
  }

  // A reachable reconciliation that has loaded sessions is at a payment of an existing booking,
  // whose ledger those sessions begin.
  lemma ReachesPayment(site: Site, w: World, steps: seq<Step>, rid: RequestId)
    requires Init(w) && Possible(site, w, steps)
    ensures var w' := After(site, w, steps);
            rid in w'.requests && w'.requests[rid].Reconciling? && w'.requests[rid].loaded.Some? ==>
              && AtPayment(w', rid)
              && var p := w'.db.payments[w'.requests[rid].queue[0]];
              && w'.requests[rid].loaded.value <= p.sessions
              && if p.authority.Some? then p.authority.value in p.sessions else p.sessions == []
  {
    MoneyKept(site, w, steps);
    SessionsThroughout(site, w, steps);
    LoadedIsAtPayment(After(site, w, steps), rid);
  }

  lemma LoadedIsAtPayment(w: World, rid: RequestId)
    requires MoneySound(w) && SessionSound(w)
    ensures rid in w.requests && w.requests[rid].Reconciling? && w.requests[rid].loaded.Some? ==>
              && AtPayment(w, rid)
              && var p := w.db.payments[w.requests[rid].queue[0]];
              && w.requests[rid].loaded.value <= p.sessions
              && if p.authority.Some? then p.authority.value in p.sessions else p.sessions == []
  {
    if rid in w.requests && w.requests[rid].Reconciling? && w.requests[rid].loaded.Some? {
      assert LoadedFact(w.db, w.requests[rid]);
      var id := w.requests[rid].queue[0];
      assert CurrentIssued(w.db, id) && CurrentSessionNamed(w.db, id);
    }
  }

  // With the current session in the ledger, asking about the ledger is asking about them all.
  lemma LedgerIsAll(p: Payment)
    requires if p.authority.Some? then p.authority.value in p.sessions else p.sessions == []
    ensures Authorities(p) == Newest(p.sessions)
  {
    NewestKeepsAll(p.sessions);
  }

  lemma AnswerIsACommit(site: Site, w: World, rid: RequestId, gateway: Session -> Verdict)
    requires AtPayment(w, rid)
    ensures var r := w.requests[rid];
            var late := Answer(w.db, gateway, r.queue[0], r.loaded.value);
            late.Some? ==> CanCommit(site, w, r, late.value)
  {
    VerifyMeans(gateway, Newest(w.requests[rid].loaded.value));
    NewestKeepsAll(w.requests[rid].loaded.value);
  }

  // What the job does with each payment is one commit the step system allows it, on whatever it
  // loaded; if nothing was issued since, it is the very transaction of the undisturbed loop.
  lemma DecisionIsACommit(site: Site, w: World, steps: seq<Step>, rid: RequestId, gateway: Session -> Verdict)
    requires Init(w) && Possible(site, w, steps)
    requires var w' := After(site, w, steps);
             rid in w'.requests && w'.requests[rid].Reconciling? && w'.requests[rid].loaded.Some?
    ensures var w' := After(site, w, steps);
            && AtPayment(w', rid)
            && var r := w'.requests[rid];
            var id := r.queue[0];
            var late := Answer(w'.db, gateway, id, r.loaded.value);
            && (late.Some? ==> CanCommit(site, w', r, late.value))
            && (r.loaded.value == w'.db.payments[id].sessions ==>
                  Decision(w'.db, gateway, id) == if late.Some? then Some(TxnOf(site, w', r, late.value)) else None)
  {
    ReachesPayment(site, w, steps, rid);
    var w' := After(site, w, steps);
    AnswerIsACommit(site, w', rid, gateway);
    LedgerIsAll(w'.db.payments[w'.requests[rid].queue[0]]);
  }

  // ----- what it may write off

  // Disturbed or not, the job writes a payment off exactly when no session was ever issued for it,
  // or when all those it had loaded were declined.
  predicate WritesOff(gateway: Session -> Verdict, loaded: seq<Session>, issued: seq<Session>) {
    if loaded == [] then issued == [] else forall s :: s in loaded ==> gateway(s) == NotPaying
  }

  lemma CaptureNeverFails(db: Tables, id: BookingId, session: Session)
    requires PaymentIs(db, id, Initiated)
    ensures !PaymentIs(Run(db, ReconcileCapture(id, session)), id, Failed)
  {
    if Is(db, id, PendingPayment) {
      CapturedRow(db, id, session);
    }
  }

  lemma DeclineFails(db: Tables, id: BookingId, stake: nat)
    requires PaymentIs(db, id, Initiated)
    ensures PaymentIs(Run(db, Decline(id, stake)), id, Failed)
  {
    DeclinedRow(db, id, stake);
  }

  lemma CommitWritesOffIff(site: Site, w: World, rid: RequestId, gateway: Session -> Verdict)
    requires AtPayment(w, rid) && PaymentIs(w.db, w.requests[rid].queue[0], Initiated)
    requires var p := w.db.payments[w.requests[rid].queue[0]]; p.authority.None? <==> p.sessions == []
    ensures var r := w.requests[rid];
            var id := r.queue[0];
            var late := Answer(w.db, gateway, id, r.loaded.value);
            late.Some? && CanCommit(site, w, r, late.value) ==>
              (PaymentIs(CommitDb(site, w, rid, late.value), id, Failed)
               <==> WritesOff(gateway, r.loaded.value, w.db.payments[id].sessions))
  {
    var r := w.requests[rid];
    var id := r.queue[0];
    VerifyMeans(gateway, Newest(r.loaded.value));
    NewestKeepsAll(r.loaded.value);
    var late := Answer(w.db, gateway, id, r.loaded.value);
    if late.Some? && late.value.Verified? {
      CaptureNeverFails(w.db, id, late.value.session);
    } else if late.Some? && late.value.NotVerified? {
      DeclineFails(w.db, id, w.db.bookings[id].stake);
    }
  }

  // So a capture that is written off was made through a session issued after the job loaded the
  // ledger (or after the gateway was asked). SessionLedger says how its money still comes back.
  lemma WritesOffOnlyLaterSessions(site: Site, w: World, steps: seq<Step>, rid: RequestId, gateway: Session -> Verdict, s: Session)
    requires Init(w) && Possible(site, w, steps)
    requires var w' := After(site, w, steps);
             && AtPayment(w', rid) && PaymentIs(w'.db, w'.requests[rid].queue[0], Initiated)
             && Answer(w'.db, gateway, w'.requests[rid].queue[0], w'.requests[rid].loaded.value).Some?
    ensures var w' := After(site, w, steps);
            var r := w'.requests[rid];
            var id := r.queue[0];
            var late := Answer(w'.db, gateway, id, r.loaded.value).value;
            && Enabled(site, w', Commit(rid, late))
            && (PaymentIs(Apply(site, w', Commit(rid, late)).db, id, Failed)
                <==> WritesOff(gateway, r.loaded.value, w'.db.payments[id].sessions))
            && r.loaded.value <= w'.db.payments[id].sessions
            && (WritesOff(gateway, r.loaded.value, w'.db.payments[id].sessions) && s in w'.db.payments[id].sessions && gateway(s) == Paying
                ==> s in w'.db.payments[id].sessions[|r.loaded.value|..])
  {
    ReachesPayment(site, w, steps, rid);
    var w' := After(site, w, steps);
    AnswerIsACommit(site, w', rid, gateway);
    CommitWritesOffIff(site, w', rid, gateway);
    var r := w'.requests[rid];
    var issued := w'.db.payments[r.queue[0]].sessions;
    assert issued == r.loaded.value + issued[|r.loaded.value|..];
  }
}
