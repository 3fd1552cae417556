/**
 * The hourly referral sweep: referral-expiry.job.ts. Its subquery reads one snapshot; by the
 * time the update locks a row, a grant may have committed, and only the outer WHERE sees it.
 */
module ReferralExpiry {
  import opened Options

  const REFERRAL_BATCH := 500

  datatype ReferralStatus = AwaitingQualifyingEvent | RewardGranted | Lapsed

  datatype Referral = Referral(status: ReferralStatus, expiresAt: Option<int>)

  predicate Sweepable(r: Referral, now: int) {
    r.status == AwaitingQualifyingEvent && r.expiresAt.Some? && r.expiresAt.value < now
  }

  // The subquery: the earliest sweepable rows of the snapshot, at most a batch.
  ghost predicate Selects(snapshot: seq<Referral>, now: int, ids: seq<nat>) {
    && |ids| <= REFERRAL_BATCH
    && (forall i :: 0 <= i < |ids| ==> ids[i] < |snapshot| && Sweepable(snapshot[ids[i]], now))
    && (forall i, j :: 0 <= i < j < |ids| ==> ids[i] != ids[j])
    && (forall k: nat :: k < |snapshot| && Sweepable(snapshot[k], now) && k !in ids ==>
          |ids| == REFERRAL_BATCH && forall i :: 0 <= i < |ids| ==> snapshot[ids[i]].expiresAt.value <= snapshot[k].expiresAt.value)
  }

  // A referral is redeemed, granted or swept; it never waits again and keeps its expiry.
  predicate MovesOn(was: Referral, is': Referral) {
    is'.expiresAt == was.expiresAt && (is'.status == was.status || was.status == AwaitingQualifyingEvent)
  }

  ghost predicate Later(snapshot: seq<Referral>, rows: seq<Referral>) {
    |snapshot| <= |rows| && forall k :: 0 <= k < |snapshot| ==> MovesOn(snapshot[k], rows[k])
  }

  function Swept(rows: seq<Referral>, ids: seq<nat>): seq<Referral> {
    seq(|rows|, k requires 0 <= k < |rows| =>
      if k in ids && rows[k].status == AwaitingQualifyingEvent then rows[k].(status := Lapsed) else rows[k])
  }

  // What a bare id IN (...) would have done.
  function SweptBlindly(rows: seq<Referral>, ids: seq<nat>): seq<Referral> {
    seq(|rows|, k requires 0 <= k < |rows| => if k in ids then rows[k].(status := Lapsed) else rows[k])
  }

  // How many rows RETURNING names.
  function SweptCount(rows: seq<Referral>, ids: seq<nat>): nat {
    if ids == [] then 0
    else
      var last := ids[|ids| - 1];
      SweptCount(rows, ids[..|ids| - 1]) + if last < |rows| && rows[last].status == AwaitingQualifyingEvent then 1 else 0
  }

  lemma SweepStep(rows: seq<Referral>, ids: seq<nat>, id: nat)
    requires id !in ids
    ensures var swept := Swept(rows, ids);
            Swept(rows, ids + [id]) ==
              if id < |rows| && swept[id].status == AwaitingQualifyingEvent then swept[id := swept[id].(status := Lapsed)] else swept
    ensures id < |rows| ==> Swept(rows, ids)[id] == rows[id]
  {
    assert forall k :: k in ids + [id] <==> k in ids || k == id;
  }

  // The count is of the selected rows that still waited.
  lemma {:induction false} CountIsOfWaiting(rows: seq<Referral>, ids: seq<nat>)
    requires forall i, j :: 0 <= i < j < |ids| ==> ids[i] != ids[j]
    ensures SweptCount(rows, ids) == |set k | k in ids && k < |rows| && rows[k].status == AwaitingQualifyingEvent|
  {
    var waiting := set k | k in ids && k < |rows| && rows[k].status == AwaitingQualifyingEvent;
    if ids == [] {
      assert waiting == {};
    } else {
      var init, last := ids[..|ids| - 1], ids[|ids| - 1];
      CountIsOfWaiting(rows, init);
      var before := set k | k in init && k < |rows| && rows[k].status == AwaitingQualifyingEvent;
      assert forall k :: k in ids <==> k in init || k == last;
      if last < |rows| && rows[last].status == AwaitingQualifyingEvent {
        assert waiting == before + {last} && last !in before;
      } else {
        assert waiting == before;
      }
    }
  }

  // Whatever was granted between the subquery and the update, the update lapses exactly the selected
  // referrals that still wait, and each of them had run out when they were selected.
  lemma SweepLapsesExactly(snapshot: seq<Referral>, now: int, ids: seq<nat>, rows: seq<Referral>)
    requires Selects(snapshot, now, ids) && Later(snapshot, rows)
    ensures |Swept(rows, ids)| == |rows|
    ensures forall k: nat :: k < |rows| ==>
              if k in ids && rows[k].status == AwaitingQualifyingEvent
              then && Swept(rows, ids)[k] == rows[k].(status := Lapsed)
                   && rows[k].expiresAt.Some? && rows[k].expiresAt.value < now
              else Swept(rows, ids)[k] == rows[k]
  {
    forall k: nat | k < |rows| && k in ids
      ensures rows[k].expiresAt.Some? && rows[k].expiresAt.value < now
    {
      var i :| 0 <= i < |ids| && ids[i] == k;
      assert Sweepable(snapshot[ids[i]], now) && MovesOn(snapshot[k], rows[k]);
    }
  }

  class ReferralTable {
    var rows: seq<Referral>

    constructor (rows: seq<Referral>)
      ensures this.rows == rows
    {
      this.rows := rows;
    }

    // The update locks its rows one by one and tests each as it stands then.
    method Sweep(ids: seq<nat>) returns (expired: nat)
      requires forall i, j :: 0 <= i < j < |ids| ==> ids[i] != ids[j]
      modifies this
      ensures rows == Swept(old(rows), ids)
      ensures expired == |set k | k in ids && k < |old(rows)| && old(rows)[k].status == AwaitingQualifyingEvent|
    {
      expired := 0;
      ghost var before := rows;
      var i := 0;
      while i < |ids|
        invariant 0 <= i <= |ids|
        invariant rows == Swept(before, ids[..i])
        invariant expired == SweptCount(before, ids[..i])
      {
        var id := ids[i];
        SweepStep(before, ids[..i], id);
        assert ids[..i + 1] == ids[..i] + [id];
        if id < |rows| && rows[id].status == AwaitingQualifyingEvent {
          rows := rows[id := rows[id].(status := Lapsed)];
          expired := expired + 1;
        }
        i := i + 1;
      }
      assert ids[..i] == ids;
      CountIsOfWaiting(before, ids);
    }
  }

  // Leaving the outer test out is harmless exactly when no selected row has moved on.
  lemma BlindSweepAgreesIff(rows: seq<Referral>, ids: seq<nat>)
    ensures SweptBlindly(rows, ids) == Swept(rows, ids) <==>
              forall k :: k in ids && k < |rows| ==> rows[k].status != RewardGranted
  {
    if SweptBlindly(rows, ids) == Swept(rows, ids) {
      forall k | k in ids && k < |rows|
        ensures rows[k].status != RewardGranted
      {
        assert SweptBlindly(rows, ids)[k] == Swept(rows, ids)[k];
      }
    }
  }
}
