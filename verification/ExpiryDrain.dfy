/**
 * The approval-expiry job drains its queue: whoever is ahead of a due request, and however many
 * arrive meanwhile, it is gone after a bounded number of ticks. And a tick never overwrites a
 * decision made between its query and its update.
 */
module ExpiryDrain {
  import opened Options
  import opened Records
  import opened Transactions
  import opened Schedule
  import opened Protocol
  import opened Evolution
  import opened Requests
  import opened CapacitySafety

  // ----- the queue

  predicate Waiting(db: Tables, id: BookingId) {
    Is(db, id, PendingApproval) && db.bookings[id].approvalDeadline.Some?
  }

  function DeadlineOf(db: Tables, id: BookingId): int
    requires Waiting(db, id)
  {
    db.bookings[id].approvalDeadline.value
  }

  // The waiting requests that may be served before this one.
  function Ahead(db: Tables, id: BookingId, deadline: int): set<BookingId> {
    set k: BookingId | k < |db.bookings| && k != id && Waiting(db, k) && DeadlineOf(db, k) <= deadline
  }

  // ORDER BY approval_expires_at ASC LIMIT 1000 over the due requests.
  ghost predicate PicksEarliest(db: Tables, at: int, ids: seq<BookingId>) {
    && |ids| <= EXPIRY_BATCH && Distinct(ids)
    && (forall i :: 0 <= i < |ids| ==> Waiting(db, ids[i]) && DeadlineOf(db, ids[i]) <= at)
    && (forall k: BookingId :: Waiting(db, k) && DeadlineOf(db, k) <= at && k !in ids ==>
          |ids| == EXPIRY_BATCH && forall i :: 0 <= i < |ids| ==> DeadlineOf(db, ids[i]) <= DeadlineOf(db, k))
  }

  // ----- one transaction

  // Everything in the batch that still waits and is due leaves; nothing else is touched.
  lemma {:induction false} BatchClears(db: Tables, ids: seq<BookingId>, at: int)
    ensures forall k :: k in ids && Exists(db, k)
                        && db.bookings[k].approvalDeadline.Some? && db.bookings[k].approvalDeadline.value <= at ==>
              !Is(ApprovalsExpired(db, ids, at), k, PendingApproval)
  {
    if ids == [] {
    } else {
      var init, last := ids[..|ids| - 1], ids[|ids| - 1];
      BatchClears(db, init, at);
      BatchRows(db, init, UndecidedBy(at));
      var rest := ApprovalsExpired(db, init, at);
      if Exists(rest, last) && IsDue(rest.bookings[last], UndecidedBy(at)) {
        EndedRow(rest, last, PendingApproval, Expired);
      }
      assert forall k :: k in ids <==> k in init || k == last;
    }
  }

  // The outer WHERE repeats the status test: a request the salon decided in between keeps its
  // decision, and so does every row the query never picked.
  lemma DecisionsStand(db: Tables, ids: seq<BookingId>, at: int, k: BookingId)
    requires Exists(db, k) && (k !in ids || !Is(db, k, PendingApproval))
    ensures Exists(ApprovalsExpired(db, ids, at), k) && ApprovalsExpired(db, ids, at).bookings[k] == db.bookings[k]
  {
    BatchRows(db, ids, UndecidedBy(at));
    if k !in ids {
      UnpickedStay(db, ids, at, k);
    }
  }

  lemma {:induction false} UnpickedStay(db: Tables, ids: seq<BookingId>, at: int, k: BookingId)
    requires Exists(db, k) && k !in ids
    ensures Exists(ApprovalsExpired(db, ids, at), k) && ApprovalsExpired(db, ids, at).bookings[k] == db.bookings[k]
  {
    if ids == [] {
    } else {
      var init, last := ids[..|ids| - 1], ids[|ids| - 1];
      assert k !in init && k != last;
      UnpickedStay(db, init, at, k);
      var rest := ApprovalsExpired(db, init, at);
      if Exists(rest, last) && IsDue(rest.bookings[last], UndecidedBy(at)) {
        EndedRow(rest, last, PendingApproval, Expired);
      }
    }
  }

  // ----- one step

  // Nobody gets ahead of a due request: others only leave, and new requests are due later.
  lemma NobodyGetsAhead(site: Site, w: World, step: Step, id: BookingId, deadline: int)
    requires Sound(w) && Enabled(site, w, step) && deadline <= w.now
    ensures Ahead(Apply(site, w, step).db, id, deadline) <= Ahead(w.db, id, deadline)
    ensures Is(Apply(site, w, step).db, id, PendingApproval) && Exists(w.db, id) ==>
              Is(w.db, id, PendingApproval) && Apply(site, w, step).db.bookings[id].approvalDeadline == w.db.bookings[id].approvalDeadline
  {
    var w' := Apply(site, w, step);
    StepEvolves(site, w, step);
    forall k: BookingId | |w.db.bookings| <= k < |w'.db.bookings|
      ensures Waiting(w'.db, k) ==> DeadlineOf(w'.db, k) > deadline
    {
      NewRequestsAreDueLater(site, w, step, k);
    }
    EvolvingKeepsOrder(w.db, w'.db, id, deadline);
  }

  lemma EvolvingKeepsOrder(db: Tables, db': Tables, id: BookingId, deadline: int)
    requires RowsEvolve(db, db')
    requires forall k: BookingId :: |db.bookings| <= k < |db'.bookings| && Waiting(db', k) ==> DeadlineOf(db', k) > deadline
    ensures Ahead(db', id, deadline) <= Ahead(db, id, deadline)
    ensures Is(db', id, PendingApproval) && Exists(db, id) ==>
              Is(db, id, PendingApproval) && db'.bookings[id].approvalDeadline == db.bookings[id].approvalDeadline
  {
    assert Exists(db, id) ==> Evolves(db.bookings[id], db'.bookings[id]);
    forall k | k in Ahead(db', id, deadline)
      ensures k in Ahead(db, id, deadline)
    {
      assert k < |db.bookings|;
      assert Evolves(db.bookings[k], db'.bookings[k]);
    }
  }

  lemma NewRequestsAreDueLater(site: Site, w: World, step: Step, k: BookingId)
    requires Sound(w) && Enabled(site, w, step) && Exists(Apply(site, w, step).db, k) && k >= |w.db.bookings|
    ensures Waiting(Apply(site, w, step).db, k) ==> DeadlineOf(Apply(site, w, step).db, k) > w.now
  {
    DbChangesByTxn(site, w, step);
    CommitIsLegal(site, w, step);
    var t := Commits(site, w, step).value;
    RunRowCount(w.db, t);
    if t.PlaceHold? {
      HoldPlacedRow(w.db, t.now, t.slot, t.terms);
    }
  }

  // ----- a tick: the query, anything by anyone else, the update

  predicate OthersOnly(steps: seq<Step>, rid: RequestId) {
    forall i :: 0 <= i < |steps| ==> Actor(steps[i]) != Some(rid)
  }

  // What a tick has picked and what is ahead of the request, as others move on.
  ghost predicate TickUnderWay(w: World, rid: RequestId, ids: seq<BookingId>, at: int, id: BookingId, deadline: int,
                               ahead: set<BookingId>)
  {
    && Sound(w) && rid in w.requests && w.requests[rid] == ExpiringApprovals(ids, at)
    && at <= w.now && deadline <= at && Exists(w.db, id) && Ahead(w.db, id, deadline) <= ahead
    && (Is(w.db, id, PendingApproval) ==> w.db.bookings[id].approvalDeadline == Some(deadline))
    && forall k :: k in ids ==> Exists(w.db, k) && w.db.bookings[k].approvalDeadline.Some? && w.db.bookings[k].approvalDeadline.value <= at
  }

  lemma OthersKeepTick(site: Site, w: World, step: Step, rid: RequestId, ids: seq<BookingId>, at: int, id: BookingId,
                       deadline: int, ahead: set<BookingId>)
    requires TickUnderWay(w, rid, ids, at, id, deadline, ahead) && Enabled(site, w, step) && Actor(step) != Some(rid)
    ensures TickUnderWay(Apply(site, w, step), rid, ids, at, id, deadline, ahead)
  {
    StepStaysSound(site, w, step);
    StepEvolves(site, w, step);
    OthersWait(site, w, step, rid);
    NobodyGetsAhead(site, w, step, id, deadline);
    var w' := Apply(site, w, step);
    forall k | k in ids
      ensures Exists(w'.db, k) && w'.db.bookings[k].approvalDeadline == w.db.bookings[k].approvalDeadline
    {
      assert Evolves(w.db.bookings[k], w'.db.bookings[k]);
    }
  }

  lemma {:induction false} TickWaits(site: Site, w: World, steps: seq<Step>, rid: RequestId, ids: seq<BookingId>,
                                     at: int, id: BookingId, deadline: int, ahead: set<BookingId>)
    requires TickUnderWay(w, rid, ids, at, id, deadline, ahead) && Possible(site, w, steps) && OthersOnly(steps, rid)
    ensures TickUnderWay(After(site, w, steps), rid, ids, at, id, deadline, ahead)
    decreases |steps|
  {
    if steps == [] {
    } else {
      assert Actor(steps[0]) != Some(rid);
      OthersKeepTick(site, w, steps[0], rid, ids, at, id, deadline, ahead);
      TickWaits(site, Apply(site, w, steps[0]), steps[1..], rid, ids, at, id, deadline, ahead);
    }
  }

  // ----- one round: anything at all, then a tick

  // meanwhile precedes the tick's query; during falls between its query and its update.
  datatype Round = Round(meanwhile: seq<Step>, rid: RequestId, ids: seq<BookingId>, during: seq<Step>)

  function Query(site: Site, w: World, r: Round): Step
    requires Possible(site, w, r.meanwhile)
  {
    Begin(r.rid, ExpiringApprovals(r.ids, After(site, w, r.meanwhile).now))
  }

  ghost predicate IsRound(site: Site, w: World, r: Round) {
    && Possible(site, w, r.meanwhile)
    && var queried := After(site, w, r.meanwhile);
    && Enabled(site, queried, Query(site, w, r)) && PicksEarliest(queried.db, queried.now, r.ids)
    && var picked := Apply(site, queried, Query(site, w, r));
    && Possible(site, picked, r.during) && OthersOnly(r.during, r.rid)
    && Enabled(site, After(site, picked, r.during), Commit(r.rid, NoInput))
  }

  ghost function RoundEnd(site: Site, w: World, r: Round): World
    requires IsRound(site, w, r)
  {
    var picked := Apply(site, After(site, w, r.meanwhile), Query(site, w, r));
    Apply(site, After(site, picked, r.during), Commit(r.rid, NoInput))
  }

  // Gone, or still waiting for the same deadline with at most so many ahead.
  ghost predicate Served(w: World, id: BookingId, deadline: int, ahead: int) {
    && Sound(w) && Exists(w.db, id) && deadline <= w.now
    && (Is(w.db, id, PendingApproval) ==> w.db.bookings[id].approvalDeadline == Some(deadline) && |Ahead(w.db, id, deadline)| <= ahead)
  }

  lemma TimePasses(site: Site, w: World, step: Step)
    requires Enabled(site, w, step)
    ensures w.now <= Apply(site, w, step).now
  {
  }

  lemma StepServes(site: Site, w: World, step: Step, id: BookingId, deadline: int, ahead: int)
    requires Served(w, id, deadline, ahead) && Enabled(site, w, step)
    ensures Served(Apply(site, w, step), id, deadline, ahead)
  {
    TimePasses(site, w, step);
    StepStaysSound(site, w, step);
    StepEvolves(site, w, step);
    NobodyGetsAhead(site, w, step, id, deadline);
    SubsetSize(Ahead(Apply(site, w, step).db, id, deadline), Ahead(w.db, id, deadline));
  }

  lemma {:induction false} ServedMeanwhile(site: Site, w: World, steps: seq<Step>, id: BookingId, deadline: int, ahead: int)
    requires Served(w, id, deadline, ahead) && Possible(site, w, steps)
    ensures Served(After(site, w, steps), id, deadline, ahead)
    decreases |steps|
  {
    if steps == [] {
    } else {
      StepServes(site, w, steps[0], id, deadline, ahead);
      ServedMeanwhile(site, Apply(site, w, steps[0]), steps[1..], id, deadline, ahead);
    }
  }

  function Picked(ids: seq<BookingId>): set<BookingId> {
    set k | k in ids
  }

  lemma {:induction false} DistinctPicks(ids: seq<BookingId>)
    requires Distinct(ids)
    ensures |Picked(ids)| == |ids|
  {
    if ids == [] {
    } else {
      var init, last := ids[..|ids| - 1], ids[|ids| - 1];
      DistinctPicks(init);
      assert last !in init;
      assert Picked(ids) == Picked(init) + {last};
    }
  }

  // What the update leaves of those ahead: none of the batch.
  lemma UpdateClearsBatch(db: Tables, ids: seq<BookingId>, at: int, id: BookingId, deadline: int)
    requires forall k :: k in ids ==> Exists(db, k) && db.bookings[k].approvalDeadline.Some? && db.bookings[k].approvalDeadline.value <= at
    ensures var db' := ApprovalsExpired(db, ids, at);
            && Ahead(db', id, deadline) <= Ahead(db, id, deadline) - Picked(ids)
            && (id in ids ==> !Is(db', id, PendingApproval))
  {
    BatchClears(db, ids, at);
    BatchRows(db, ids, UndecidedBy(at));
  }

  // A batch that passes a due request over is full of requests ahead of it.
  lemma PassedOverByFullBatch(db: Tables, at: int, ids: seq<BookingId>, id: BookingId, deadline: int)
    requires PicksEarliest(db, at, ids) && Waiting(db, id) && DeadlineOf(db, id) == deadline <= at && id !in ids
    ensures |Picked(ids)| == EXPIRY_BATCH && Picked(ids) <= Ahead(db, id, deadline)
  {
    DistinctPicks(ids);
    forall k | k in ids
      ensures k in Ahead(db, id, deadline)
    {
      var i :| 0 <= i < |ids| && ids[i] == k;
    }
  }

  lemma CommitOfTick(site: Site, w: World, rid: RequestId, ids: seq<BookingId>, at: int)
    requires rid in w.requests && w.requests[rid] == ExpiringApprovals(ids, at) && Enabled(site, w, Commit(rid, NoInput))
    ensures Apply(site, w, Commit(rid, NoInput)).db == ApprovalsExpired(w.db, ids, at)
    ensures Apply(site, w, Commit(rid, NoInput)).now == w.now
  {
  }

  // The update of a tick leaves of those that were ahead at its query only what it did not pick.
  lemma UpdateServes(site: Site, w: World, rid: RequestId, ids: seq<BookingId>, at: int, id: BookingId, deadline: int,
                     before: set<BookingId>)
    requires TickUnderWay(w, rid, ids, at, id, deadline, before) && Enabled(site, w, Commit(rid, NoInput)) && Exists(w.db, id)
    ensures var w' := Apply(site, w, Commit(rid, NoInput));
            && Sound(w') && Exists(w'.db, id) && w'.now == w.now
            && Ahead(w'.db, id, deadline) <= before - Picked(ids)
            && (Is(w'.db, id, PendingApproval) ==>
                  id !in ids && Is(w.db, id, PendingApproval)
                  && w'.db.bookings[id].approvalDeadline == w.db.bookings[id].approvalDeadline)
  {
    CommitOfTick(site, w, rid, ids, at);
    StepStaysSound(site, w, Commit(rid, NoInput));
    StepEvolves(site, w, Commit(rid, NoInput));
    UpdateClearsBatch(w.db, ids, at, id, deadline);
    NobodyGetsAhead(site, w, Commit(rid, NoInput), id, deadline);
  }

  // One round serves the request or a thousand others that were ahead of it.
  lemma RoundServes(site: Site, w: World, r: Round, id: BookingId, deadline: int, ahead: nat)
    requires Served(w, id, deadline, ahead) && IsRound(site, w, r)
    ensures Served(RoundEnd(site, w, r), id, deadline, ahead - EXPIRY_BATCH)
  {
    ServedMeanwhile(site, w, r.meanwhile, id, deadline, ahead);
    var queried := After(site, w, r.meanwhile);
    var at := queried.now;
    var picked := Apply(site, queried, Query(site, w, r));
    StepStaysSound(site, queried, Query(site, w, r));
    var before := Ahead(queried.db, id, deadline);
    forall k | k in r.ids
      ensures Waiting(queried.db, k) && DeadlineOf(queried.db, k) <= at
    {
      var i :| 0 <= i < |r.ids| && r.ids[i] == k;
    }
    TickWaits(site, picked, r.during, r.rid, r.ids, at, id, deadline, before);
    UpdateServes(site, After(site, picked, r.during), r.rid, r.ids, at, id, deadline, before);
    if Is(queried.db, id, PendingApproval) && id !in r.ids {
      PassedOverByFullBatch(queried.db, at, r.ids, id, deadline);
      SubsetSize(Ahead(RoundEnd(site, w, r).db, id, deadline), before - Picked(r.ids));
    } else {
      NeverWaitsAgain(site, picked, r.during, id);
    }
  }

  // Whoever has left pending_approval does not come back.
  lemma {:induction false} NeverWaitsAgain(site: Site, w: World, steps: seq<Step>, id: BookingId)
    requires Sound(w) && Possible(site, w, steps) && Exists(w.db, id)
    ensures Exists(After(site, w, steps).db, id)
    ensures !Is(w.db, id, PendingApproval) ==> !Is(After(site, w, steps).db, id, PendingApproval)
    decreases |steps|
  {
    if steps == [] {
    } else {
      StepStaysSound(site, w, steps[0]);
      StepEvolves(site, w, steps[0]);
      assert Evolves(w.db.bookings[id], Apply(site, w, steps[0]).db.bookings[id]);
      NeverWaitsAgain(site, Apply(site, w, steps[0]), steps[1..], id);
    }
  }

  // ----- any number of rounds

  ghost predicate AreRounds(site: Site, w: World, rounds: seq<Round>)
    decreases |rounds|
  {
    rounds == [] || (IsRound(site, w, rounds[0]) && AreRounds(site, RoundEnd(site, w, rounds[0]), rounds[1..]))
  }

  ghost function EndOf(site: Site, w: World, rounds: seq<Round>): World
    requires AreRounds(site, w, rounds)
    decreases |rounds|
  {
    if rounds == [] then w else EndOf(site, RoundEnd(site, w, rounds[0]), rounds[1..])
  }

  lemma {:induction false} RoundsServe(site: Site, w: World, rounds: seq<Round>, id: BookingId, deadline: int, ahead: int)
    requires Served(w, id, deadline, ahead) && AreRounds(site, w, rounds)
    ensures Served(EndOf(site, w, rounds), id, deadline, ahead - EXPIRY_BATCH * |rounds|)
    decreases |rounds|
  {
    if rounds == [] {
    } else {
      if ahead >= 0 {
        RoundServes(site, w, rounds[0], id, deadline, ahead);
      } else {
        RoundServes(site, w, rounds[0], id, deadline, 0);
      }
      RoundsServe(site, RoundEnd(site, w, rounds[0]), rounds[1..], id, deadline, ahead - EXPIRY_BATCH);
    }
  }

  // With r due or earlier-due requests ahead of it, a due request has left pending_approval
  // after r / 1000 + 1 ticks, whatever arrives or happens between and during them.
  lemma DueRequestsLeaveInTime(site: Site, w: World, rounds: seq<Round>, id: BookingId)
    requires Sound(w) && Waiting(w.db, id) && DeadlineOf(w.db, id) <= w.now && AreRounds(site, w, rounds)
    requires |rounds| >= |Ahead(w.db, id, DeadlineOf(w.db, id))| / 1000 + 1
    ensures !Is(EndOf(site, w, rounds).db, id, PendingApproval)
  {
    var deadline := DeadlineOf(w.db, id);
    var ahead := |Ahead(w.db, id, deadline)|;
    RoundsServe(site, w, rounds, id, deadline, ahead);
    assert ahead - EXPIRY_BATCH * |rounds| < 0;
  }
}
