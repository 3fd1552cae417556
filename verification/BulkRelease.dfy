/** Releasing many holds at once, as the expiry jobs do, is releasing them one by one. */
module BulkRelease {
  import opened Records
  import opened Transactions

  // The stakes a read finds on the listed bookings.
  function StakeRows(bookings: seq<Booking>, ids: seq<BookingId>): seq<StakeRow> {
    if ids == [] then []
    else
      var last := ids[|ids| - 1];
      var rest := StakeRows(bookings, ids[..|ids| - 1]);
      if last < |bookings| then rest + [StakeRow(last, bookings[last].stake)] else rest
  }

  function WithoutRedemptions(db: Tables, ids: seq<BookingId>): Tables {
    db.(redemptions := map id | id in db.redemptions && id !in ids :: db.redemptions[id])
  }

  // releaseBookingHold on a list: the redemptions go, then every stake is read, then returned.
  function HoldsReleased(db: Tables, ids: seq<BookingId>): Tables {
    AllReversed(WithoutRedemptions(db, ids), StakeRows(db.bookings, ids))
  }

  // UPDATE ... SET status = 'expired' WHERE due AND id IN (ids) RETURNING id: the rows it
  // returns, and the tables it leaves.
  function Returned(db: Tables, ids: seq<BookingId>, due: Due): seq<BookingId> {
    if ids == [] then []
    else
      var last := ids[|ids| - 1];
      var rest := Returned(db, ids[..|ids| - 1], due);
      if Exists(db, last) && IsDue(db.bookings[last], due) && last !in rest then rest + [last] else rest
  }

  function Marked(db: Tables, ids: seq<BookingId>): (db': Tables)
    requires forall i :: 0 <= i < |ids| ==> Exists(db, ids[i])
    ensures |db'.bookings| == |db.bookings|
  {
    if ids == [] then db
    else
      var last := |ids| - 1;
      assert Exists(db, ids[last]);
      WithStatus(Marked(db, ids[..last]), ids[last], Expired)
  }

  lemma {:induction false} ReturnedExist(db: Tables, ids: seq<BookingId>, due: Due)
    ensures forall i :: 0 <= i < |Returned(db, ids, due)| ==> Exists(db, Returned(db, ids, due)[i])
    ensures forall id :: id in Returned(db, ids, due) <==> id in ids && Exists(db, id) && IsDue(db.bookings[id], due)
  {
    if ids == [] {
    } else {
      ReturnedExist(db, ids[..|ids| - 1], due);
      assert forall id :: id in ids <==> id in ids[..|ids| - 1] || id == ids[|ids| - 1];
    }
  }

  // ----- a release only touches stakes, wallets and redemptions

  predicate SameButStatus(bs: seq<Booking>, bs': seq<Booking>) {
    |bs| == |bs'| && forall i :: 0 <= i < |bs| ==> bs'[i] == bs[i].(status := bs'[i].status)
  }

  lemma {:induction false} MarkedRows(db: Tables, ids: seq<BookingId>)
    requires forall i :: 0 <= i < |ids| ==> Exists(db, ids[i])
    ensures var db' := Marked(db, ids);
            && db' == db.(bookings := db'.bookings) && SameButStatus(db.bookings, db'.bookings)
            && forall id: BookingId :: id < |db.bookings| ==>
                 db'.bookings[id].status == if id in ids then Expired else db.bookings[id].status
  {
    if ids == [] {
    } else {
      MarkedRows(db, ids[..|ids| - 1]);
      assert forall id :: id in ids <==> id in ids[..|ids| - 1] || id == ids[|ids| - 1];
    }
  }

  // One more id for the bulk UPDATE: it goes by the row as marked so far.
  lemma MarkStep(db: Tables, ids: seq<BookingId>, id: BookingId, due: Due)
    requires forall k :: 0 <= k < |Returned(db, ids, due)| ==> Exists(db, Returned(db, ids, due)[k])
    ensures var marked := Marked(db, Returned(db, ids, due));
            var all := Returned(db, ids + [id], due);
            && (forall k :: 0 <= k < |all| ==> Exists(db, all[k]))
            && (if Exists(marked, id) && IsDue(marked.bookings[id], due)
                then all == Returned(db, ids, due) + [id] && Marked(db, all) == WithStatus(marked, id, Expired)
                else all == Returned(db, ids, due))
  {
    var expired := Returned(db, ids, due);
    assert (ids + [id])[..|ids|] == ids;
    assert (expired + [id])[..|expired|] == expired;
    ReturnedExist(db, ids, due);
    ReturnedExist(db, ids + [id], due);
    MarkedRows(db, expired);
  }

  lemma {:induction false} ReversingKeepsRest(db: Tables, rows: seq<StakeRow>)
    ensures var db' := AllReversed(db, rows);
            && |db'.bookings| == |db.bookings|
            && db' == db.(bookings := db'.bookings, balances := db'.balances, ledger := db'.ledger)
            && forall id: BookingId :: id < |db.bookings| ==> db'.bookings[id] == db.bookings[id].(stake := db'.bookings[id].stake)
  {
    if rows == [] {
    } else {
      ReversingKeepsRest(db, rows[..|rows| - 1]);
    }
  }

  // Releases commute with the writes that do not touch stakes.
  lemma {:induction false} ReversingThenMarking(db: Tables, rows: seq<StakeRow>, id: BookingId, s: Status)
    requires Exists(db, id)
    ensures Exists(AllReversed(db, rows), id)
    ensures AllReversed(WithStatus(db, id, s), rows) == WithStatus(AllReversed(db, rows), id, s)
  {
    ReversingKeepsRest(db, rows);
    if rows == [] {
    } else {
      var init, row := rows[..|rows| - 1], rows[|rows| - 1];
      ReversingKeepsRest(db, init);
      ReversingThenMarking(db, init, id, s);
      OneReversedThenMarked(AllReversed(db, init), row, id, s);
    }
  }

  lemma OneReversedThenMarked(db: Tables, row: StakeRow, id: BookingId, s: Status)
    requires Exists(db, id)
    ensures Exists(Reversed(db, row), id)
    ensures Reversed(WithStatus(db, id, s), row) == WithStatus(Reversed(db, row), id, s)
  {
    if Reversed(db, row) != db {
      assert Reversed(WithStatus(db, id, s), row).bookings == WithStatus(Reversed(db, row), id, s).bookings;
    }
  }

  lemma {:induction false} ReversingThenDropping(db: Tables, rows: seq<StakeRow>, r: map<BookingId, Redemption>)
    ensures AllReversed(db.(redemptions := r), rows) == AllReversed(db, rows).(redemptions := r)
  {
    if rows == [] {
    } else {
      ReversingThenDropping(db, rows[..|rows| - 1], r);
    }
  }

  // A row's stake is read before anyone else's stake is returned, or after: it is the same.
  lemma {:induction false} OtherStakesStay(db: Tables, rows: seq<StakeRow>, id: BookingId)
    requires Exists(db, id) && forall i :: 0 <= i < |rows| ==> rows[i].id != id
    ensures Exists(AllReversed(db, rows), id) && AllReversed(db, rows).bookings[id] == db.bookings[id]
  {
    ReversingKeepsRest(db, rows);
    if rows == [] {
    } else {
      ReversingKeepsRest(db, rows[..|rows| - 1]);
      OtherStakesStay(db, rows[..|rows| - 1], id);
    }
  }

  lemma {:induction false} StakeRowsNameTheirIds(bookings: seq<Booking>, ids: seq<BookingId>, id: BookingId)
    requires id !in ids
    ensures forall i :: 0 <= i < |StakeRows(bookings, ids)| ==> StakeRows(bookings, ids)[i].id != id
  {
    if ids == [] {
    } else {
      assert id !in ids[..|ids| - 1] && id != ids[|ids| - 1];
      StakeRowsNameTheirIds(bookings, ids[..|ids| - 1], id);
    }
  }

  lemma {:induction false} StakeRowsIgnoreStatus(bs: seq<Booking>, bs': seq<Booking>, ids: seq<BookingId>)
    requires SameButStatus(bs, bs')
    ensures StakeRows(bs, ids) == StakeRows(bs', ids)
  {
    if ids == [] {
    } else {
      StakeRowsIgnoreStatus(bs, bs', ids[..|ids| - 1]);
    }
  }

  // ----- the two orders agree

  // Marking every due row and then releasing them all ends where marking and releasing them in
  // turn does.
  lemma {:induction false} BulkIsOneByOne(db: Tables, ids: seq<BookingId>, due: Due)
    ensures var due' := Returned(db, ids, due);
            (forall i :: 0 <= i < |due'| ==> Exists(db, due'[i]))
            && HoldsReleased(Marked(db, due'), due') == BatchExpired(db, ids, due)
  {
    ReturnedExist(db, ids, due);
    if ids == [] {
    } else {
      var init, last := ids[..|ids| - 1], ids[|ids| - 1];
      ReturnedExist(db, init, due);
      BulkIsOneByOne(db, init, due);
      var before := Returned(db, init, due);
      MarkedRows(db, before);
      var marked := Marked(db, before);
      ReversingKeepsRest(WithoutRedemptions(marked, before), StakeRows(marked.bookings, before));
      var rest := BatchExpired(db, init, due);
      if Exists(db, last) && IsDue(db.bookings[last], due) && last !in before {
        assert Returned(db, ids, due) == before + [last];
        StakeRowsNameTheirIds(marked.bookings, before, last);
        OtherStakesStay(WithoutRedemptions(marked, before), StakeRows(marked.bookings, before), last);
        assert rest.bookings[last] == db.bookings[last];
        OneMoreReleased(db, before, last);
      } else {
        assert !(Exists(rest, last) && IsDue(rest.bookings[last], due));
      }
    }
  }

  lemma OneMoreReleased(db: Tables, ids: seq<BookingId>, last: BookingId)
    requires (forall i :: 0 <= i < |ids| ==> Exists(db, ids[i])) && Exists(db, last) && last !in ids
    ensures var rest := HoldsReleased(Marked(db, ids), ids);
            var all := ids + [last];
            && (forall i :: 0 <= i < |all| ==> Exists(db, all[i])) && Exists(rest, last)
            && HoldsReleased(Marked(db, all), all) == ReleasedNow(WithStatus(rest, last, Expired), last)
  {
    var all := ids + [last];
    assert all[..|all| - 1] == ids;
    var marked, rows := Marked(db, ids), StakeRows(Marked(db, ids).bookings, ids);
    MarkedRows(db, ids);
    var more := WithStatus(marked, last, Expired);
    StakeRowsIgnoreStatus(marked.bookings, more.bookings, ids);
    assert StakeRows(more.bookings, all) == rows + [StakeRow(last, more.bookings[last].stake)];
    assert (rows + [StakeRow(last, more.bookings[last].stake)])[..|rows|] == rows;
    StakeRowsNameTheirIds(marked.bookings, ids, last);
    OtherStakesStay(marked, rows, last);
    ReversingThenMarking(marked, rows, last, Expired);
    ReversingThenDropping(more, rows, WithoutRedemptions(more, all).redemptions);
    ReversingThenDropping(marked, rows, WithoutRedemptions(marked, ids).redemptions);
    OneMoreWithoutRedemption(marked, more, ids, last);
  }

  lemma OneMoreWithoutRedemption(db: Tables, db': Tables, ids: seq<BookingId>, last: BookingId)
    requires db'.redemptions == db.redemptions
    ensures WithoutRedemptions(db', ids + [last]).redemptions == WithoutRedemptions(db, ids).redemptions - {last}
  {
    var all := ids + [last];
    assert forall id :: id in all <==> id in ids || id == last;
  }

  // A list of one.
  lemma OneHoldReleased(db: Tables, id: BookingId)
    requires Exists(db, id)
    ensures HoldsReleased(db, [id]) == ReleasedNow(db, id)
  {
    var row := StakeRow(id, db.bookings[id].stake);
    assert [id][..0] == [];
    assert StakeRows(db.bookings, [id]) == [row];
    assert [row][..0] == [];
    var dropped := WithoutRedemptions(db, [id]);
    assert dropped.redemptions == db.redemptions - {id};
    assert AllReversed(dropped, [row]) == Reversed(AllReversed(dropped, [row][..0]), row);
  }
}
