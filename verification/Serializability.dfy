/**
 * However the requests interleave, every placement that commits is one the service would have
 * accepted had it read everything at that very moment: the checks made earlier under the locks
 * still stand on the rows the transaction writes over.
 */
module Serializability {
  import opened Options
  import opened Records
  import opened Transactions
  import opened Schedule
  import opened Protocol
  import opened Requests
  import opened Decisions
  import opened CapacitySafety
  import opened WorkerSafety
  import opened CustomerLimits
  import opened CouponCaps

  lemma {:induction false} ChecksStand(site: Site, w: World, steps: seq<Step>)
    requires Sound(w) && RoomKept(site, w) && StaffKept(site, w) && StaffAtHome(site, w.db) && Possible(site, w, steps)
    ensures var w' := After(site, w, steps); Sound(w') && RoomKept(site, w') && StaffKept(site, w')
    decreases |steps|
  {
    if steps == [] {
    } else {
      StepStaysSound(site, w, steps[0]);
      StepKeepsRoom(site, w, steps[0]);
      StepStaysHome(site, w, steps[0]);
      StepKeepsStaff(site, w, steps[0]);
      ChecksStand(site, Apply(site, w, steps[0]), steps[1..]);
    }
  }

  lemma {:induction false} LimitChecksStand(site: Site, w: World, steps: seq<Step>, c: Customer)
    requires Sound(w) && LimitsKept(site, w, c) && Possible(site, w, steps) && OnlineOnly(site, w, steps, c)
    ensures LimitsKept(site, After(site, w, steps), c)
    decreases |steps|
  {
    if steps == [] {
    } else {
      StepStaysSound(site, w, steps[0]);
      StepKeepsCounts(site, w, steps[0], c);
      LimitChecksStand(site, Apply(site, w, steps[0]), steps[1..], c);
    }
  }

  // The code the terms were made with: none, or a row good for this customer at this salon.
  predicate MadeWith(terms: HoldTerms, slot: Slot, code: Code) {
    terms == WithCode(terms, code) && (code.NoCode? || (code.Naming? && GoodFor(code.row, slot.salon, slot.customer)))
  }

  predicate ExpiredBy(code: Code, now: int) {
    code.Naming? && code.row.expiresAt.Some? && code.row.expiresAt.value < now
  }

  // Only a code that runs out between its check and the commit would now be refused.
  lemma HoldsCommitAsIfAlone(site: Site, w: World, steps: seq<Step>, rid: RequestId, late: Late, code: Code)
    requires Init(w) && Possible(site, w, steps)
    requires var w' := After(site, w, steps);
             && Enabled(site, w', Commit(rid, late)) && IsPlacing(w', rid) && w'.requests[rid].intent.ToHold?
             && OnlineOnly(site, w, steps, w'.requests[rid].intent.slot.customer)
             && MadeWith(late.terms, w'.requests[rid].intent.slot, code)
    ensures var w' := After(site, w, steps);
            var slot := w'.requests[rid].intent.slot;
            && HoldRefusal(site, w'.db, w'.now, slot, code, Fit) == (if ExpiredBy(code, w'.now) then Some(CouponExpired) else None)
            && CommitDb(site, w', rid, late) == Run(w'.db, PlaceHold(w'.now, slot, WithCode(late.terms, code)))
            && |CommitDb(site, w', rid, late).bookings| == |w'.db.bookings| + 1
  {
    ChecksStand(site, w, steps);
    LimitChecksStand(site, w, steps, After(site, w, steps).requests[rid].intent.slot.customer);
    CodesStand(site, w, steps);
    CheckedHoldIsAccepted(site, After(site, w, steps), rid, late, code);
  }

  lemma CheckedHoldIsAccepted(site: Site, w: World, rid: RequestId, late: Late, code: Code)
    requires Sound(w) && RoomKept(site, w) && StaffKept(site, w) && CodesKept(site, w)
    requires Enabled(site, w, Commit(rid, late)) && IsPlacing(w, rid) && w.requests[rid].intent.ToHold?
    requires LimitsKept(site, w, w.requests[rid].intent.slot.customer) && MadeWith(late.terms, w.requests[rid].intent.slot, code)
    ensures var slot := w.requests[rid].intent.slot;
            && HoldRefusal(site, w.db, w.now, slot, code, Fit) == (if ExpiredBy(code, w.now) then Some(CouponExpired) else None)
            && CommitDb(site, w, rid, late) == Run(w.db, PlaceHold(w.now, slot, WithCode(late.terms, code)))
            && |CommitDb(site, w, rid, late).bookings| == |w.db.bookings| + 1
  {
    assert SoundRequest(w.db, w.requests[rid]) && Counted(w, rid, w.requests[rid].intent.slot.customer);
    CommitFindsCodeOpen(site, w, rid, late);
  }

  // The booking a committed entry, move or approval puts down had room and a free worker; an
  // assignment's guard lets it write only the row whose worker was counted.
  lemma OthersCommitAsIfAlone(site: Site, w: World, steps: seq<Step>, rid: RequestId, late: Late)
    requires Init(w) && Possible(site, w, steps)
    requires var w' := After(site, w, steps); Enabled(site, w', Commit(rid, late)) && IsPlacing(w', rid)
    ensures var w' := After(site, w, steps);
            var i := w'.requests[rid].intent;
            match i
            case ToHold(slot) => PlaceRefusal(site, w'.db, slot, Fit).None?
            case ToEnter(slot, _) => PlaceRefusal(site, w'.db, slot, Fit).None?
            case ToAssign(id, salon, worker, read) =>
              var refusal := AssignRefusal(site, w'.db, salon, id, worker, read, Fit);
              && (refusal == None || refusal == Some(StatusChanged))
              && (refusal.None? ==> AssignRefusal(site, w'.db, salon, id, worker, RowOf(w'.db, salon, id), Fit).None?)
              && CommitDb(site, w', rid, late) == if refusal.Some? then w'.db else Run(w'.db, Assign(id, read.value.status, worker))
            case _ => RecheckRefusal(site, w'.db, ClaimOf(i), true).None?
  {
    ChecksStand(site, w, steps);
    var w' := After(site, w, steps);
    assert SoundRequest(w'.db, w'.requests[rid]) && IsPlacing(w', rid);
  }
}
