/** Interval union and chair-minute accounting: capacity.util.ts. */
module ChairTime {
  import opened Options
  import opened Sorting
  import opened TimeOfDay
  import opened Slots

  // From start up to but not including end, in milliseconds.
  datatype Interval = Interval(start: int, end: int)

  predicate Covers(iv: Interval, t: int) {
    iv.start <= t < iv.end
  }

  predicate CoveredBy(ivs: seq<Interval>, t: int) {
    exists i :: 0 <= i < |ivs| && Covers(ivs[i], t)
  }

  // ----- sorting by start

  function StartOf(iv: Interval): int {
    iv.start
  }

  predicate StartsAscend(ivs: seq<Interval>) {
    forall i, j :: 0 <= i < j < |ivs| ==> ivs[i].start <= ivs[j].start
  }

  function ByStart(ivs: seq<Interval>): seq<Interval> {
    SortedBy(ivs, StartOf)
  }

  lemma ByStartKeeps(ivs: seq<Interval>)
    ensures StartsAscend(ByStart(ivs))
    ensures forall x :: x in ByStart(ivs) <==> x in ivs
  {
    SortedKeeps(ivs, StartOf);
    forall i, j | 0 <= i < j < |ByStart(ivs)|
      ensures ByStart(ivs)[i].start <= ByStart(ivs)[j].start
    {
      assert StartOf(ByStart(ivs)[i]) <= StartOf(ByStart(ivs)[j]);
    }
  }

  // ----- mergeIntervals

  // Neither touching nor overlapping, in order.
  predicate Separated(ivs: seq<Interval>) {
    forall i, j :: 0 <= i < j < |ivs| ==> ivs[i].end < ivs[j].start
  }

  predicate AllProper(ivs: seq<Interval>) {
    forall i :: 0 <= i < |ivs| ==> ivs[i].start < ivs[i].end
  }

  // Working hours are whole minutes, so the union's ends are too.
  predicate WholeMinutes(ivs: seq<Interval>) {
    forall i :: 0 <= i < |ivs| ==> ivs[i].start % MINUTE_MS == 0 && ivs[i].end % MINUTE_MS == 0
  }

  lemma SameElementsSameCover(a: seq<Interval>, b: seq<Interval>, t: int)
    requires forall x :: x in a <==> x in b
    ensures CoveredBy(a, t) <==> CoveredBy(b, t)
  {
    if CoveredBy(a, t) {
      var i :| 0 <= i < |a| && Covers(a[i], t);
      assert a[i] in b;
    }
    if CoveredBy(b, t) {
      var i :| 0 <= i < |b| && Covers(b[i], t);
      assert b[i] in a;
    }
  }

  function Stretched(merged: seq<Interval>, iv: Interval): seq<Interval> {
    if merged != [] && iv.start <= merged[|merged| - 1].end then
      var last := merged[|merged| - 1];
      merged[..|merged| - 1] + [Interval(last.start, if last.end < iv.end then iv.end else last.end)]
    else merged + [iv]
  }

  // merged is the union of the intervals done so far, which were taken in order of their starts.
  ghost predicate MergedSoFar(merged: seq<Interval>, done: seq<Interval>) {
    && AllProper(merged) && Separated(merged) && (merged == [] <==> done == [])
    && (merged != [] ==> merged[|merged| - 1].start <= done[|done| - 1].start)
    && (WholeMinutes(done) ==> WholeMinutes(merged))
    && forall t :: CoveredBy(merged, t) <==> CoveredBy(done, t)
  }

  lemma MergeStep(merged: seq<Interval>, done: seq<Interval>, iv: Interval)
    requires MergedSoFar(merged, done) && iv.start < iv.end && (done != [] ==> done[|done| - 1].start <= iv.start)
    ensures MergedSoFar(Stretched(merged, iv), done + [iv])
  {
    forall t
      ensures CoveredBy(Stretched(merged, iv), t) <==> CoveredBy(done + [iv], t)
    {
      OneMoreCovers(merged, Stretched(merged, iv), iv, t);
      CoverGrows(done, iv, t);
    }
    if WholeMinutes(done + [iv]) {
      assert (done + [iv])[|done|] == iv;
      assert forall i :: 0 <= i < |done| ==> (done + [iv])[i] == done[i];
    }
  }

  lemma NextMerged(sorted: seq<Interval>, i: nat, merged: seq<Interval>)
    requires StartsAscend(sorted) && AllProper(sorted) && i < |sorted| && MergedSoFar(merged, sorted[..i])
    ensures MergedSoFar(Stretched(merged, sorted[i]), sorted[..i + 1])
  {
    MergeStep(merged, sorted[..i], sorted[i]);
    assert sorted[..i + 1] == sorted[..i] + [sorted[i]];
  }

  lemma SortedStayProper(intervals: seq<Interval>)
    requires AllProper(intervals)
    ensures StartsAscend(ByStart(intervals)) && AllProper(ByStart(intervals)) && MergedSoFar([], [])
  {
    ByStartKeeps(intervals);
    forall i | 0 <= i < |ByStart(intervals)|
      ensures ByStart(intervals)[i].start < ByStart(intervals)[i].end
    {
      assert ByStart(intervals)[i] in intervals;
    }
  }

  // The union of the intervals, as the fewest that make it up.
  method MergeIntervals(intervals: seq<Interval>) returns (merged: seq<Interval>)
    requires AllProper(intervals)
    ensures AllProper(merged) && Separated(merged)
    ensures forall t :: CoveredBy(merged, t) <==> CoveredBy(intervals, t)
    ensures WholeMinutes(intervals) ==> WholeMinutes(merged)
  {
    var sorted := ByStart(intervals);
    SortedStayProper(intervals);
    merged := [];
    var i := 0;
    while i < |sorted|
      invariant 0 <= i <= |sorted|
      invariant MergedSoFar(merged, sorted[..i])
    {
      NextMerged(sorted, i, merged);
      merged := MergeOne(merged, sorted[i]);
      i := i + 1;
    }
    assert sorted[..i] == sorted;
    SortedIsSame(intervals, merged);
  }

  // The next interval by start stretches the last one or stands by itself.
  method MergeOne(merged: seq<Interval>, iv: Interval) returns (r: seq<Interval>)
    ensures r == Stretched(merged, iv)
  {
    r := merged;
    if r != [] && iv.start <= r[|r| - 1].end {
      var last := r[|r| - 1];
      r := r[|r| - 1 := last.(end := if last.end < iv.end then iv.end else last.end)];
    } else {
      r := r + [iv];
    }
  }

  lemma SortedIsSame(intervals: seq<Interval>, merged: seq<Interval>)
    requires MergedSoFar(merged, ByStart(intervals))
    ensures forall t :: CoveredBy(merged, t) <==> CoveredBy(intervals, t)
    ensures WholeMinutes(intervals) ==> WholeMinutes(merged)
  {
    var sorted := ByStart(intervals);
    ByStartKeeps(intervals);
    forall t
      ensures CoveredBy(merged, t) <==> CoveredBy(intervals, t)
    {
      SameElementsSameCover(sorted, intervals, t);
    }
    if WholeMinutes(intervals) {
      forall i | 0 <= i < |sorted|
        ensures sorted[i].start % MINUTE_MS == 0 && sorted[i].end % MINUTE_MS == 0
      {
        assert sorted[i] in intervals;
      }
    }
  }

  lemma CoverGrows(ivs: seq<Interval>, iv: Interval, t: int)
    ensures CoveredBy(ivs + [iv], t) <==> CoveredBy(ivs, t) || Covers(iv, t)
  {
    var more := ivs + [iv];
    assert more[|ivs|] == iv;
    if CoveredBy(ivs, t) {
      var i :| 0 <= i < |ivs| && Covers(ivs[i], t);
      assert more[i] == ivs[i];
    }
  }

  // Stretching the last interval over one that starts within it adds just that one.
  lemma OneMoreCovers(before: seq<Interval>, after: seq<Interval>, iv: Interval, t: int)
    requires iv.start < iv.end && AllProper(before)
    requires before != [] ==> before[|before| - 1].start <= iv.start
    requires if before != [] && iv.start <= before[|before| - 1].end then
               var last := before[|before| - 1];
               after == before[..|before| - 1] + [Interval(last.start, if last.end < iv.end then iv.end else last.end)]
             else after == before + [iv]
    ensures CoveredBy(after, t) <==> CoveredBy(before, t) || Covers(iv, t)
  {
    if before != [] && iv.start <= before[|before| - 1].end {
      var init, last := before[..|before| - 1], before[|before| - 1];
      assert before == init + [last];
      CoverGrows(init, last, t);
      CoverGrows(init, after[|init|], t);
    } else {
      CoverGrows(before, iv, t);
    }
  }

  // ----- how long the union is

  function Length(iv: Interval): int {
    iv.end - iv.start
  }

  function TotalLength(ivs: seq<Interval>): int {
    if ivs == [] then 0 else TotalLength(ivs[..|ivs| - 1]) + Length(ivs[|ivs| - 1])
  }

  function Instants(lo: int, hi: int): set<int> {
    set t | lo <= t < hi && Covers(Interval(lo, hi), t)
  }

  function Covered(ivs: seq<Interval>, lo: int, hi: int): set<int> {
    set t | lo <= t < hi && CoveredBy(ivs, t)
  }

  lemma {:induction false} InstantsCount(lo: int, hi: int)
    requires lo <= hi
    ensures |Instants(lo, hi)| == hi - lo
    decreases hi - lo
  {
    if lo < hi {
      InstantsCount(lo, hi - 1);
      assert Instants(lo, hi) == Instants(lo, hi - 1) + {hi - 1};
    } else {
      assert Instants(lo, hi) == {};
    }
  }

  // Separated intervals count every instant of their union once.
  lemma {:induction false} LengthIsMeasure(ivs: seq<Interval>, lo: int, hi: int)
    requires AllProper(ivs) && Separated(ivs)
    requires forall i :: 0 <= i < |ivs| ==> lo <= ivs[i].start && ivs[i].end <= hi
    ensures TotalLength(ivs) == |Covered(ivs, lo, hi)|
  {
    if ivs == [] {
      assert Covered(ivs, lo, hi) == {};
    } else {
      var init, last := ivs[..|ivs| - 1], ivs[|ivs| - 1];
      LengthIsMeasure(init, lo, hi);
      InstantsCount(last.start, last.end);
      assert ivs == init + [last];
      forall t
        ensures CoveredBy(ivs, t) <==> CoveredBy(init, t) || Covers(last, t)
      {
        CoverGrows(init, last, t);
      }
      assert Covered(ivs, lo, hi) == Covered(init, lo, hi) + Instants(last.start, last.end);
      assert Covered(init, lo, hi) !! Instants(last.start, last.end);
    }
  }

  // ----- booked chair time, and the double counting behind it

  function Overlap(b: Taken, iv: Interval): int {
    var lo := if b.startsAt < iv.start then iv.start else b.startsAt;
    var hi := if b.endsAt < iv.end then b.endsAt else iv.end;
    if hi - lo > 0 then hi - lo else 0
  }

  function BookedIn(bs: seq<Taken>, iv: Interval): int {
    if bs == [] then 0 else BookedIn(bs[..|bs| - 1], iv) + Overlap(bs[|bs| - 1], iv)
  }

  function Booked(bs: seq<Taken>, ivs: seq<Interval>): int {
    if ivs == [] then 0 else Booked(bs, ivs[..|ivs| - 1]) + BookedIn(bs, ivs[|ivs| - 1])
  }

  // One booking's share of all the intervals.
  function ShareOf(b: Taken, ivs: seq<Interval>): int {
    if ivs == [] then 0 else ShareOf(b, ivs[..|ivs| - 1]) + Overlap(b, ivs[|ivs| - 1])
  }

  lemma {:induction false} OneMoreBooked(bs: seq<Taken>, b: Taken, ivs: seq<Interval>)
    ensures Booked(bs + [b], ivs) == Booked(bs, ivs) + ShareOf(b, ivs)
  {
    assert (bs + [b])[..|bs|] == bs;
    if ivs == [] {
    } else {
      OneMoreBooked(bs, b, ivs[..|ivs| - 1]);
    }
  }

  lemma {:induction false} NothingBooked(ivs: seq<Interval>)
    ensures Booked([], ivs) == 0
  {
    if ivs == [] {
    } else {
      NothingBooked(ivs[..|ivs| - 1]);
    }
  }

  // How many bookings are on at an instant.
  function OnAt(bs: seq<Taken>, t: int): nat {
    if bs == [] then 0
    else OnAt(bs[..|bs| - 1], t) + if bs[|bs| - 1].startsAt <= t < bs[|bs| - 1].endsAt then 1 else 0
  }

  // Counting by booking and counting by instant come to the same.
  function OnDuring(bs: seq<Taken>, lo: int, hi: int): nat
    decreases hi - lo
  {
    if lo >= hi then 0 else OnDuring(bs, lo, hi - 1) + OnAt(bs, hi - 1)
  }

  lemma {:induction false} LastInstant(bs: seq<Taken>, lo: int, hi: int)
    requires lo < hi
    ensures BookedIn(bs, Interval(lo, hi)) == BookedIn(bs, Interval(lo, hi - 1)) + OnAt(bs, hi - 1)
  {
    if bs == [] {
    } else {
      LastInstant(bs[..|bs| - 1], lo, hi);
    }
  }

  lemma {:induction false} NothingInNoTime(bs: seq<Taken>, lo: int, hi: int)
    requires lo >= hi
    ensures BookedIn(bs, Interval(lo, hi)) == 0
  {
    if bs == [] {
    } else {
      NothingInNoTime(bs[..|bs| - 1], lo, hi);
    }
  }

  lemma {:induction false} DoubleCounting(bs: seq<Taken>, lo: int, hi: int)
    ensures BookedIn(bs, Interval(lo, hi)) == OnDuring(bs, lo, hi)
    decreases hi - lo
  {
    if lo < hi {
      DoubleCounting(bs, lo, hi - 1);
      LastInstant(bs, lo, hi);
    } else {
      NothingInNoTime(bs, lo, hi);
    }
  }

  lemma Distributes(c: int, a: int, b: int)
    ensures c * (a + b) == c * a + c * b
  {
  }

  lemma {:induction false} BoundedDuring(bs: seq<Taken>, lo: int, hi: int, chairs: nat)
    requires lo <= hi && forall t :: lo <= t < hi ==> OnAt(bs, t) <= chairs
    ensures OnDuring(bs, lo, hi) <= chairs * (hi - lo)
    decreases hi - lo
  {
    if lo >= hi {
    } else {
      BoundedDuring(bs, lo, hi - 1, chairs);
      Distributes(chairs, hi - 1 - lo, 1);
    }
  }

  // With never more than chairs bookings on at once, booked time fits into chairs times open time.
  lemma {:induction false} BookedFitsChairs(bs: seq<Taken>, ivs: seq<Interval>, chairs: nat)
    requires AllProper(ivs) && forall t :: OnAt(bs, t) <= chairs
    ensures 0 <= Booked(bs, ivs) <= chairs * TotalLength(ivs)
  {
    if ivs == [] {
    } else {
      var init, last := ivs[..|ivs| - 1], ivs[|ivs| - 1];
      BookedFitsChairs(bs, init, chairs);
      DoubleCounting(bs, last.start, last.end);
      BoundedDuring(bs, last.start, last.end, chairs);
      assert last == Interval(last.start, last.end);
      Distributes(chairs, TotalLength(init), Length(last));
    }
  }

  // ----- one day of the dashboard

  datatype ClosedReason = NoHours | ClosedByException

  datatype DayCapacity = DayCapacity(
    date: int,
    weekday: int,
    closedReason: Option<ClosedReason>,
    openMinutes: int,
    capacityMinutes: int,
    bookedMinutes: int,
    freeMinutes: int,
    freePercent: Option<int>,
    bookingsCount: nat)

  // Math.round(ms / 60000)
  function RoundedMinutes(ms: int): (minutes: int)
    ensures 60_000 * (2 * minutes - 1) <= 2 * ms < 60_000 * (2 * minutes + 1)
  {
    (2 * ms + MINUTE_MS) / (2 * MINUTE_MS)
  }

  // Math.round((part / whole) * 100); nothing on offer has no percentage.
  function FreePercent(part: int, whole: int): (percent: Option<int>)
    ensures percent.Some? <==> whole > 0
    ensures percent.Some? ==> whole * (2 * percent.value - 1) <= 200 * part < whole * (2 * percent.value + 1)
  {
    if whole > 0 then Some((200 * part + whole) / (2 * whole)) else None
  }

  function StartingOn(bs: seq<Taken>, date: int): nat {
    if bs == [] then 0
    else
      var b := bs[|bs| - 1];
      StartingOn(bs[..|bs| - 1], date) + if WallClock(date, 0) <= b.startsAt < WallClock(date, 24 * 60) then 1 else 0
  }

  function AsInterval(date: int, w: Window): Interval {
    Interval(WallClock(date, w.openMin), WallClock(date, w.closeMin))
  }

  lemma WallClockIsWholeMinutes(day: int, minute: int)
    ensures WallClock(day, minute) % MINUTE_MS == 0
  {
  }

  // Windows that are not empty, as instants of the date.
  function ProperIntervals(date: int, ws: seq<Window>): (ivs: seq<Interval>)
    ensures AllProper(ivs) && WholeMinutes(ivs)
  {
    if ws == [] then []
    else
      var iv := AsInterval(date, ws[|ws| - 1]);
      WallClockIsWholeMinutes(date, ws[|ws| - 1].openMin);
      WallClockIsWholeMinutes(date, ws[|ws| - 1].closeMin);
      ProperIntervals(date, ws[..|ws| - 1]) + if iv.end > iv.start then [iv] else []
  }

  predicate OpenAt(date: int, ws: seq<Window>, t: int) {
    exists i :: 0 <= i < |ws| && Covers(AsInterval(date, ws[i]), t)
  }

  lemma OneMoreOpen(date: int, ws: seq<Window>, w: Window, t: int)
    ensures OpenAt(date, ws + [w], t) <==> OpenAt(date, ws, t) || Covers(AsInterval(date, w), t)
  {
    var more := ws + [w];
    assert more[|ws|] == w;
    if OpenAt(date, ws, t) {
      var i :| 0 <= i < |ws| && Covers(AsInterval(date, ws[i]), t);
      assert more[i] == ws[i];
    }
  }

  // Dropping the empty windows loses no instant.
  lemma {:induction false} ProperIntervalsCover(date: int, ws: seq<Window>, t: int)
    ensures CoveredBy(ProperIntervals(date, ws), t) <==> OpenAt(date, ws, t)
  {
    if ws == [] {
    } else {
      var init, last := ws[..|ws| - 1], ws[|ws| - 1];
      assert ws == init + [last];
      ProperIntervalsCover(date, init, t);
      OneMoreOpen(date, init, last, t);
      CoverGrows(ProperIntervals(date, init), AsInterval(date, last), t);
      if !(AsInterval(date, last).end > AsInterval(date, last).start) {
        assert ProperIntervals(date, ws) == ProperIntervals(date, init);
      }
    }
  }

  method OpenMinutes(open: seq<Interval>) returns (minutes: int)
    requires WholeMinutes(open)
    ensures minutes * MINUTE_MS == TotalLength(open)
  {
    minutes := 0;
    var i := 0;
    while i < |open|
      invariant 0 <= i <= |open|
      invariant minutes * MINUTE_MS == TotalLength(open[..i])
    {
      assert open[..i + 1][..i] == open[..i];
      minutes := minutes + (open[i].end - open[i].start) / MINUTE_MS;
      i := i + 1;
    }
    assert open[..i] == open;
  }

  method CountBookings(date: int, open: seq<Interval>, bookings: seq<Taken>) returns (bookedMs: int, bookingsCount: nat)
    ensures bookedMs == Booked(bookings, open) && bookingsCount == StartingOn(bookings, date)
  {
    bookedMs, bookingsCount := 0, 0;
    NothingBooked(open);
    var i := 0;
    while i < |bookings|
      invariant 0 <= i <= |bookings|
      invariant bookedMs == Booked(bookings[..i], open) && bookingsCount == StartingOn(bookings[..i], date)
    {
      var b := bookings[i];
      assert bookings[..i + 1] == bookings[..i] + [b];
      OneMoreBooked(bookings[..i], b, open);
      if b.startsAt >= WallClock(date, 0) && b.startsAt < WallClock(date, 24 * 60) { bookingsCount := bookingsCount + 1; }
      var j := 0;
      while j < |open|
        invariant 0 <= j <= |open|
        invariant bookedMs == Booked(bookings[..i], open) + ShareOf(b, open[..j])
      {
        assert open[..j + 1][..j] == open[..j];
        var from := if b.startsAt < open[j].start then open[j].start else b.startsAt;
        var until := if b.endsAt < open[j].end then b.endsAt else open[j].end;
        if until - from > 0 { bookedMs := bookedMs + (until - from); }
        j := j + 1;
      }
      assert open[..j] == open;
      i := i + 1;
    }
    assert bookings[..i] == bookings;
  }

  // The figures of a date, given its open intervals.
  ghost predicate Figures(day: DayCapacity, date: int, capacity: int, ranges: seq<ClockRange>,
                          exc: Option<DateException>, bookings: seq<Taken>, open: seq<Interval>)
  {
    && day.date == date && FallsOn(date, day.weekday)
    && AllProper(open) && Separated(open)
    && (if exc == Some(WholeDay) then open == [] else forall t :: CoveredBy(open, t) <==> OpenAt(date, AllPieces(ranges, exc), t))
    && (day.closedReason.None? <==> open != [])
    && (day.closedReason == Some(NoHours) <==> exc != Some(WholeDay) && ranges == [])
    && day.openMinutes * MINUTE_MS == TotalLength(open)
    && day.capacityMinutes == day.openMinutes * (if capacity > 0 then capacity else 0)
    && day.bookedMinutes == RoundedMinutes(Booked(bookings, open))
    && day.freeMinutes == (if day.capacityMinutes > day.bookedMinutes then day.capacityMinutes - day.bookedMinutes else 0)
    && day.freePercent == FreePercent(day.freeMinutes, day.capacityMinutes)
    && day.bookingsCount == StartingOn(bookings, date)
  }

  ghost predicate IsDay(day: DayCapacity, date: int, capacity: int, ranges: seq<ClockRange>,
                        exc: Option<DateException>, bookings: seq<Taken>)
  {
    exists open :: Figures(day, date, capacity, ranges, exc, bookings, open)
  }

  // Chair-minutes of one day: what the union of its open windows offers, and what bookings
  // take of it.
  method ComputeDay(date: int, capacity: int, ranges: seq<ClockRange>, exc: Option<DateException>,
                    bookings: seq<Taken>)
    returns (day: DayCapacity)
    ensures IsDay(day, date, capacity, ranges, exc, bookings)
  {
    var merged: seq<Interval> := [];
    var closedReason: Option<ClosedReason> := None;
    if exc == Some(WholeDay) {
      closedReason := Some(ClosedByException);
    } else if |ranges| == 0 {
      closedReason := Some(NoHours);
    } else {
      merged := MergeIntervals(ProperIntervals(date, AllPieces(ranges, exc)));
      forall t
        ensures CoveredBy(merged, t) <==> OpenAt(date, AllPieces(ranges, exc), t)
      {
        ProperIntervalsCover(date, AllPieces(ranges, exc), t);
      }
      if |merged| == 0 { closedReason := Some(ClosedByException); }
    }
    var openMinutes := OpenMinutes(merged);
    var bookedMs, bookingsCount := CountBookings(date, merged, bookings);
    var chairs := if capacity > 0 then capacity else 0;
    var booked := RoundedMinutes(bookedMs);
    var offered := openMinutes * chairs;
    var free := if offered > booked then offered - booked else 0;
    day := DayCapacity(date, Weekday(date), closedReason, openMinutes, offered, booked, free, FreePercent(free, offered), bookingsCount);
    WeekdayIs(date, day.weekday);
    assert Figures(day, date, capacity, ranges, exc, bookings, merged);
  }
}
