/** The dashboard's free chair-time, and why it is an exact difference: salon-capacity.service.ts. */
module Dashboard {
  import opened Options
  import opened Records
  import opened Schedule
  import opened Protocol
  import opened TimeOfDay
  import opened Slots
  import opened Preview
  import opened ChairTime
  import opened CapacitySafety

  const CAPACITY_MAX_DAYS := 31

  datatype RangeError = EmptyRange | TooLong

  datatype Totals = Totals(openMinutes: int, capacityMinutes: int, bookedMinutes: int, freeMinutes: int, freePercent: Option<int>)

  datatype SalonCapacity = SalonCapacity(days: seq<DayCapacity>, totals: Totals)

  function WindowRows(db: Tables, salon: Salon, fromDate: int, toDate: int): seq<Taken> {
    FetchedRows(db.bookings, salon, WallClock(fromDate, 0), WallClock(toDate, 0))
  }

  // ----- the bookings fetched for a window

  lemma {:induction false} OnAtIsWithinOccupying(db: Tables, salon: Salon, lo: int, hi: int, t: int)
    ensures OnAt(FetchedRows(db.bookings, salon, lo, hi), t) <= |Occupying(db, salon, t)|
    decreases |db.bookings|
  {
    if db.bookings == [] {
      assert FetchedRows(db.bookings, salon, lo, hi) == [];
    } else {
      var last := |db.bookings| - 1;
      var b := db.bookings[last];
      OnAtIsWithinOccupying(Before(db), salon, lo, hi, t);
      var init := FetchedRows(Before(db).bookings, salon, lo, hi);
      OneMoreOnAt(init, Taken(b.startsAt, b.endsAt, b.worker), Fetched(b, salon, lo, hi), t);
      OneMoreOccupying(db, Before(db), salon, t);
    }
  }

  lemma OneMoreOccupying(db: Tables, init: Tables, salon: Salon, t: int)
    requires db.bookings != [] && init.bookings == db.bookings[..|db.bookings| - 1]
    ensures var b := db.bookings[|db.bookings| - 1];
            |Occupying(db, salon, t)|
            >= |Occupying(init, salon, t)| + if b.salon == salon && SlotBlocking(b.status) && b.startsAt <= t < b.endsAt then 1 else 0
  {
    var last := |db.bookings| - 1;
    var b := db.bookings[last];
    var was := Occupying(init, salon, t);
    if b.salon == salon && SlotBlocking(b.status) && b.startsAt <= t < b.endsAt {
      assert Occupying(db, salon, t) == was + {last};
    } else {
      SubsetSize(was, Occupying(db, salon, t));
    }
  }

  lemma OneMoreOnAt(init: seq<Taken>, last: Taken, fetched: bool, t: int)
    ensures OnAt(init + if fetched then [last] else [], t) == OnAt(init, t) + if fetched && last.startsAt <= t < last.endsAt then 1 else 0
  {
    if fetched {
      assert (init + [last])[..|init|] == init;
    } else {
      assert init + [] == init;
    }
  }

  // The booking time dropped by the query's window lies outside every interval of the window.
  lemma {:induction false} WindowLosesNoTime(bookings: seq<Booking>, salon: Salon, lo: int, hi: int, lo': int,
                                             hi': int, ivs: seq<Interval>)
    requires forall i :: 0 <= i < |ivs| ==> lo <= ivs[i].start && ivs[i].end <= hi
    requires lo' <= lo && hi <= hi'
    ensures Booked(FetchedRows(bookings, salon, lo, hi), ivs) == Booked(FetchedRows(bookings, salon, lo', hi'), ivs)
  {
    if bookings == [] {
    } else {
      var b := bookings[|bookings| - 1];
      var row := Taken(b.startsAt, b.endsAt, b.worker);
      var init := bookings[..|bookings| - 1];
      WindowLosesNoTime(init, salon, lo, hi, lo', hi', ivs);
      OneMoreBooked(FetchedRows(init, salon, lo, hi), row, ivs);
      OneMoreBooked(FetchedRows(init, salon, lo', hi'), row, ivs);
      if !Fetched(b, salon, lo, hi) {
        assert FetchedRows(bookings, salon, lo, hi) == FetchedRows(init, salon, lo, hi);
        if Fetched(b, salon, lo', hi') {
          OutsideSharesNothing(row, ivs, lo, hi);
        } else {
          assert FetchedRows(bookings, salon, lo', hi') == FetchedRows(init, salon, lo', hi');
        }
      }
    }
  }

  lemma {:induction false} OutsideSharesNothing(b: Taken, ivs: seq<Interval>, lo: int, hi: int)
    requires forall i :: 0 <= i < |ivs| ==> lo <= ivs[i].start && ivs[i].end <= hi
    requires b.startsAt >= hi || b.endsAt <= lo
    ensures ShareOf(b, ivs) == 0
  {
    if ivs == [] {
    } else {
      OutsideSharesNothing(b, ivs[..|ivs| - 1], lo, hi);
    }
  }

  // Every live booking of the salon, whenever it is.
  function LiveRows(bookings: seq<Booking>, salon: Salon): seq<Taken> {
    if bookings == [] then []
    else
      var b := bookings[|bookings| - 1];
      LiveRows(bookings[..|bookings| - 1], salon)
      + if b.salon == salon && SlotBlocking(b.status) then [Taken(b.startsAt, b.endsAt, b.worker)] else []
  }

  lemma {:induction false} FetchLosesNoTime(bookings: seq<Booking>, salon: Salon, lo: int, hi: int, ivs: seq<Interval>)
    requires forall i :: 0 <= i < |ivs| ==> lo <= ivs[i].start && ivs[i].end <= hi
    ensures Booked(FetchedRows(bookings, salon, lo, hi), ivs) == Booked(LiveRows(bookings, salon), ivs)
  {
    if bookings == [] {
    } else {
      var b := bookings[|bookings| - 1];
      var init, row := bookings[..|bookings| - 1], Taken(b.startsAt, b.endsAt, b.worker);
      FetchLosesNoTime(init, salon, lo, hi, ivs);
      OneMoreBooked(FetchedRows(init, salon, lo, hi), row, ivs);
      OneMoreBooked(LiveRows(init, salon), row, ivs);
      if b.salon == salon && SlotBlocking(b.status) && !Fetched(b, salon, lo, hi) {
        OutsideSharesNothing(row, ivs, lo, hi);
      }
      assert !Fetched(b, salon, lo, hi) ==> FetchedRows(bookings, salon, lo, hi) == FetchedRows(init, salon, lo, hi);
      assert !(b.salon == salon && SlotBlocking(b.status)) ==> LiveRows(bookings, salon) == LiveRows(init, salon);
    }
  }

  // The window's fetch finds all the live booking time between its first midnight and its last.
  lemma WindowSeesAll(db: Tables, salon: Salon, fromDate: int, toDate: int, ivs: seq<Interval>)
    requires forall i :: 0 <= i < |ivs| ==> WallClock(fromDate, 0) <= ivs[i].start && ivs[i].end <= WallClock(toDate, 0)
    ensures Booked(WindowRows(db, salon, fromDate, toDate), ivs) == Booked(LiveRows(db.bookings, salon), ivs)
  {
    FetchLosesNoTime(db.bookings, salon, WallClock(fromDate, 0), WallClock(toDate, 0), ivs);
  }

  // ----- one day

  // What the figures of a day promise when no instant is overbooked.
  predicate ExactDay(d: DayCapacity) {
    && 0 <= d.bookedMinutes <= d.capacityMinutes
    && d.freeMinutes == d.capacityMinutes - d.bookedMinutes
    && (d.freePercent.None? <==> d.capacityMinutes == 0)
    && (d.freePercent.Some? ==> 0 <= d.freePercent.value <= 100)
  }

  lemma QuotientAtMostHundred(n: nat, d: nat)
    requires d > 0 && n < 101 * d
    ensures n / d <= 100
  {
  }

  lemma PercentInRange(part: int, whole: int)
    requires 0 <= part <= whole && whole > 0
    ensures FreePercent(part, whole).Some? && 0 <= FreePercent(part, whole).value <= 100
  {
    QuotientAtMostHundred(200 * part + whole, 2 * whole);
  }

  lemma RoundingFits(ms: int, minutes: int)
    requires 0 <= ms <= minutes * MINUTE_MS
    ensures 0 <= RoundedMinutes(ms) <= minutes
  {
  }

  lemma ChairMinutesInMs(capacity: int, minutes: int)
    ensures capacity * (minutes * MINUTE_MS) == (minutes * capacity) * MINUTE_MS
  {
  }

  lemma FiguresAreExact(d: DayCapacity, bookings: seq<Taken>, open: seq<Interval>, capacity: nat)
    requires AllProper(open) && forall t :: OnAt(bookings, t) <= capacity
    requires d.openMinutes * MINUTE_MS == TotalLength(open) && d.capacityMinutes == d.openMinutes * capacity
    requires d.bookedMinutes == RoundedMinutes(Booked(bookings, open))
    requires d.freeMinutes == if d.capacityMinutes > d.bookedMinutes then d.capacityMinutes - d.bookedMinutes else 0
    requires d.freePercent == FreePercent(d.freeMinutes, d.capacityMinutes)
    ensures ExactDay(d)
  {
    BookedFitsChairs(bookings, open, capacity);
    ChairMinutesInMs(capacity, d.openMinutes);
    RoundingFits(Booked(bookings, open), d.capacityMinutes);
    if d.capacityMinutes > 0 {
      PercentInRange(d.freeMinutes, d.capacityMinutes);
    }
  }

  lemma DayIsExact(d: DayCapacity, date: int, capacity: nat, ranges: seq<ClockRange>, exc: Option<DateException>,
                   bookings: seq<Taken>)
    requires IsDay(d, date, capacity, ranges, exc, bookings) && forall t :: OnAt(bookings, t) <= capacity
    ensures ExactDay(d)
  {
    var open: seq<Interval> :| Figures(d, date, capacity, ranges, exc, bookings, open);
    FiguresAreExact(d, bookings, open, capacity);
  }

  // The day's open minutes are the measure of its working hours less the exception: no minute
  // that two working-hour rows share is counted twice.
  lemma OpenMinutesAreMeasured(d: DayCapacity, date: int, capacity: int, ranges: seq<ClockRange>,
                               exc: Option<DateException>, bookings: seq<Taken>)
    requires IsDay(d, date, capacity, ranges, exc, bookings) && exc != Some(WholeDay)
    requires EarlyEnough(AllPieces(ranges, exc))
    ensures d.openMinutes * MINUTE_MS ==
              |set t | WallClock(date, 0) <= t < WallClock(date, 24 * 60) && OpenAt(date, AllPieces(ranges, exc), t)|
  {
    var open: seq<Interval> :| Figures(d, date, capacity, ranges, exc, bookings, open);
    var lo, hi := WallClock(date, 0), WallClock(date, 24 * 60);
    forall i | 0 <= i < |open|
      ensures lo <= open[i].start && open[i].end <= hi
    {
      assert Covers(open[i], open[i].start) && Covers(open[i], open[i].end - 1);
      assert CoveredBy(open, open[i].start) && CoveredBy(open, open[i].end - 1);
      OpenWithinDay(date, AllPieces(ranges, exc), open[i].start);
      OpenWithinDay(date, AllPieces(ranges, exc), open[i].end - 1);
    }
    LengthIsMeasure(open, lo, hi);
    assert Covered(open, lo, hi) == set t | lo <= t < hi && OpenAt(date, AllPieces(ranges, exc), t);
  }

  lemma OpenWithinDay(date: int, ws: seq<Window>, t: int)
    requires EarlyEnough(ws) && OpenAt(date, ws, t)
    ensures WallClock(date, 0) <= t < WallClock(date, 24 * 60)
  {
  }

  // ----- the window

  // sum(pick)
  function Sum(days: seq<DayCapacity>, pick: DayCapacity -> int): int {
    if days == [] then 0 else Sum(days[..|days| - 1], pick) + pick(days[|days| - 1])
  }

  // Adding up is adding up the parts, and one day counts its own figure.
  lemma {:induction false} SumOfBoth(a: seq<DayCapacity>, b: seq<DayCapacity>, pick: DayCapacity -> int)
    ensures Sum(a + b, pick) == Sum(a, pick) + Sum(b, pick)
    ensures forall d: DayCapacity :: Sum([d], pick) == pick(d)
  {
    forall d: DayCapacity
      ensures Sum([d], pick) == pick(d)
    {
      assert [d][..0] == [];
    }
    if b == [] {
      assert a + b == a;
    } else {
      SumOfBoth(a, b[..|b| - 1], pick);
      assert (a + b)[..|a + b| - 1] == a + b[..|b| - 1];
    }
  }

  predicate TotalsOf(t: Totals, days: seq<DayCapacity>) {
    && t.openMinutes == Sum(days, (d: DayCapacity) => d.openMinutes)
    && t.capacityMinutes == Sum(days, (d: DayCapacity) => d.capacityMinutes)
    && t.bookedMinutes == Sum(days, (d: DayCapacity) => d.bookedMinutes)
    && t.freeMinutes == Sum(days, (d: DayCapacity) => d.freeMinutes)
    && t.freePercent == FreePercent(t.freeMinutes, t.capacityMinutes)
  }

  lemma {:induction false} SumsAreExact(days: seq<DayCapacity>)
    requires forall i :: 0 <= i < |days| ==> ExactDay(days[i])
    ensures 0 <= Sum(days, (d: DayCapacity) => d.bookedMinutes) <= Sum(days, (d: DayCapacity) => d.capacityMinutes)
    ensures Sum(days, (d: DayCapacity) => d.freeMinutes)
            == Sum(days, (d: DayCapacity) => d.capacityMinutes) - Sum(days, (d: DayCapacity) => d.bookedMinutes)
  {
    if days == [] {
    } else {
      SumsAreExact(days[..|days| - 1]);
    }
  }

  lemma TotalsAreExact(t: Totals, days: seq<DayCapacity>)
    requires TotalsOf(t, days) && forall i :: 0 <= i < |days| ==> ExactDay(days[i])
    ensures 0 <= t.bookedMinutes && t.freeMinutes == t.capacityMinutes - t.bookedMinutes
    ensures t.freePercent.Some? ==> 0 <= t.freePercent.value <= 100
  {
    SumsAreExact(days);
    if t.capacityMinutes > 0 {
      PercentInRange(t.freeMinutes, t.capacityMinutes);
    }
  }

  // Each day's figures come from that date's hours and closure, and from the one fetch.
  ghost predicate DaysFigured(days: seq<DayCapacity>, capacity: nat, fromDate: int, hours: seq<HourRow>,
                              closures: seq<ClosureRow>, rows: seq<Taken>)
  {
    forall i :: 0 <= i < |days| ==>
      IsDay(days[i], fromDate + i, capacity, HoursFor(hours, Weekday(fromDate + i)), ClosureFor(closures, fromDate + i), rows)
  }

  lemma OneMoreFigured(days: seq<DayCapacity>, day: DayCapacity, capacity: nat, fromDate: int, hours: seq<HourRow>,
                       closures: seq<ClosureRow>, rows: seq<Taken>)
    requires DaysFigured(days, capacity, fromDate, hours, closures, rows)
    requires var date := fromDate + |days|;
             IsDay(day, date, capacity, HoursFor(hours, Weekday(date)), ClosureFor(closures, date), rows)
    ensures DaysFigured(days + [day], capacity, fromDate, hours, closures, rows)
  {
    forall i | 0 <= i <= |days|
      ensures IsDay((days + [day])[i], fromDate + i, capacity, HoursFor(hours, Weekday(fromDate + i)),
                    ClosureFor(closures, fromDate + i), rows)
    {
    }
  }

  method FiguresFor(date: int, capacity: int, byWeekday: map<int, seq<ClockRange>>,
                    exceptions: map<int, DateException>, bookings: seq<Taken>)
    returns (day: DayCapacity)
    ensures IsDay(day, date, capacity,
                  Listed(byWeekday, Weekday(date)),
                  if date in exceptions then Some(exceptions[date]) else None, bookings)
  {
    var weekday := Weekday(LocalDay(WallClock(date, 12 * 60)));
    assert weekday == Weekday(date);
    var ranges := Listed(byWeekday, weekday);
    var exc := if date in exceptions then Some(exceptions[date]) else None;
    day := ComputeDay(date, capacity, ranges, exc, bookings);
  }

  method ComputeDays(capacity: nat, fromDate: int, span: nat, hours: seq<HourRow>, closures: seq<ClosureRow>, rows: seq<Taken>)
    returns (days: seq<DayCapacity>)
    ensures |days| == span && DaysFigured(days, capacity, fromDate, hours, closures, rows)
  {
    var byWeekday := HoursByWeekday(hours);
    var exceptions := ExceptionsByDate(closures);
    days := [];
    while |days| < span
      invariant |days| <= span && DaysFigured(days, capacity, fromDate, hours, closures, rows)
    {
      var date := fromDate + |days|;
      var day := FiguresFor(date, capacity, byWeekday, exceptions, rows);
      assert Listed(byWeekday, Weekday(date)) == HoursFor(hours, Weekday(date));
      OneMoreFigured(days, day, capacity, fromDate, hours, closures, rows);
      days := days + [day];
    }
  }

  // The window's figures, day by day, from the rows of one fetch.
  method Compute(db: Tables, salon: Salon, capacity: nat, fromDate: int, toDate: int, hours: seq<HourRow>,
                 closures: seq<ClosureRow>)
    returns (r: Result<SalonCapacity, RangeError>)
    ensures r == Failure(EmptyRange) <==> toDate <= fromDate
    ensures r == Failure(TooLong) <==> toDate - fromDate > 31
    ensures r.Success? ==>
              |r.value.days| == toDate - fromDate && WindowFigures(r.value, db, salon, capacity, fromDate, hours, closures)
  {
    var span := toDate - fromDate;
    if span <= 0 { return Failure(EmptyRange); }
    if span > CAPACITY_MAX_DAYS { return Failure(TooLong); }
    var days := ComputeDays(capacity, fromDate, span, hours, closures, WindowRows(db, salon, fromDate, toDate));
    var capacityMinutes := Sum(days, (d: DayCapacity) => d.capacityMinutes);
    var freeMinutes := Sum(days, (d: DayCapacity) => d.freeMinutes);
    var totals := Totals(Sum(days, (d: DayCapacity) => d.openMinutes), capacityMinutes,
                         Sum(days, (d: DayCapacity) => d.bookedMinutes), freeMinutes, FreePercent(freeMinutes, capacityMinutes));
    return Success(SalonCapacity(days, totals));
  }

  // ----- in every reachable state

  ghost predicate WindowFigures(s: SalonCapacity, db: Tables, salon: Salon, capacity: nat, fromDate: int,
                                hours: seq<HourRow>, closures: seq<ClosureRow>)
  {
    && DaysFigured(s.days, capacity, fromDate, hours, closures, WindowRows(db, salon, fromDate, fromDate + |s.days|))
    && TotalsOf(s.totals, s.days)
  }

  ghost predicate NeverMoreThan(rows: seq<Taken>, capacity: nat) {
    forall t :: OnAt(rows, t) <= capacity
  }

  lemma RowsWithinCapacity(site: Site, w: World, steps: seq<Step>, salon: Salon, fromDate: int, toDate: int)
    requires Init(w) && Possible(site, w, steps) && salon in site.capacity
    ensures NeverMoreThan(WindowRows(After(site, w, steps).db, salon, fromDate, toDate), site.capacity[salon])
  {
    var db := After(site, w, steps).db;
    forall t
      ensures OnAt(WindowRows(db, salon, fromDate, toDate), t) <= site.capacity[salon]
    {
      CapacityIsNeverExceeded(site, w, steps, salon, t);
      OnAtIsWithinOccupying(db, salon, WallClock(fromDate, 0), WallClock(toDate, 0), t);
    }
  }

  lemma DaysAreExact(days: seq<DayCapacity>, capacity: nat, fromDate: int, hours: seq<HourRow>, closures: seq<ClosureRow>,
                     rows: seq<Taken>)
    requires DaysFigured(days, capacity, fromDate, hours, closures, rows) && NeverMoreThan(rows, capacity)
    ensures forall i :: 0 <= i < |days| ==> ExactDay(days[i])
  {
    forall i | 0 <= i < |days|
      ensures ExactDay(days[i])
    {
      DayIsExact(days[i], fromDate + i, capacity, HoursFor(hours, Weekday(fromDate + i)), ClosureFor(closures, fromDate + i), rows);
    }
  }

  lemma WindowIsExact(s: SalonCapacity, db: Tables, salon: Salon, capacity: nat, fromDate: int, hours: seq<HourRow>,
                      closures: seq<ClosureRow>)
    requires WindowFigures(s, db, salon, capacity, fromDate, hours, closures)
    requires NeverMoreThan(WindowRows(db, salon, fromDate, fromDate + |s.days|), capacity)
    ensures forall i :: 0 <= i < |s.days| ==> ExactDay(s.days[i])
    ensures 0 <= s.totals.bookedMinutes && s.totals.freeMinutes == s.totals.capacityMinutes - s.totals.bookedMinutes
    ensures s.totals.freePercent.Some? ==> 0 <= s.totals.freePercent.value <= 100
  {
    DaysAreExact(s.days, capacity, fromDate, hours, closures, WindowRows(db, salon, fromDate, fromDate + |s.days|));
    TotalsAreExact(s.totals, s.days);
  }

  // Because capacity holds at every instant, the clamp at zero never bites and the percentages
  // stay in range, for each day and for the window.
  lemma FreeTimeIsExactDifference(site: Site, w: World, steps: seq<Step>, salon: Salon, s: SalonCapacity,
                                  fromDate: int, hours: seq<HourRow>, closures: seq<ClosureRow>)
    requires Init(w) && Possible(site, w, steps) && salon in site.capacity
    requires WindowFigures(s, After(site, w, steps).db, salon, site.capacity[salon], fromDate, hours, closures)
    ensures forall i :: 0 <= i < |s.days| ==> ExactDay(s.days[i])
    ensures 0 <= s.totals.bookedMinutes && s.totals.freeMinutes == s.totals.capacityMinutes - s.totals.bookedMinutes
    ensures s.totals.freePercent.Some? ==> 0 <= s.totals.freePercent.value <= 100
  {
    RowsWithinCapacity(site, w, steps, salon, fromDate, fromDate + |s.days|);
    WindowIsExact(s, After(site, w, steps).db, salon, site.capacity[salon], fromDate, hours, closures);
  }

  // ----- each booking starts on one day

  function StartingSum(bs: seq<Taken>, fromDate: int, days: nat): nat {
    if days == 0 then 0 else StartingSum(bs, fromDate, days - 1) + StartingOn(bs, fromDate + days - 1)
  }

  function StartingWithin(bs: seq<Taken>, lo: int, hi: int): nat {
    if bs == [] then 0
    else StartingWithin(bs[..|bs| - 1], lo, hi) + if lo <= bs[|bs| - 1].startsAt < hi then 1 else 0
  }

  lemma {:induction false} NextDayStarts(bs: seq<Taken>, lo: int, date: int)
    requires lo <= WallClock(date, 0)
    ensures StartingWithin(bs, lo, WallClock(date + 1, 0)) == StartingWithin(bs, lo, WallClock(date, 0)) + StartingOn(bs, date)
  {
    if bs == [] {
    } else {
      NextDayStarts(bs[..|bs| - 1], lo, date);
    }
  }

  lemma {:induction false} NoneStartIn(bs: seq<Taken>, lo: int)
    ensures StartingWithin(bs, lo, lo) == 0
  {
    if bs == [] {
    } else {
      NoneStartIn(bs[..|bs| - 1], lo);
    }
  }

  // The days' booking counts add up to the bookings that start in the window, each counted once.
  lemma {:induction false} CountsPartition(bs: seq<Taken>, fromDate: int, days: nat)
    ensures StartingSum(bs, fromDate, days) == StartingWithin(bs, WallClock(fromDate, 0), WallClock(fromDate + days, 0))
  {
    if days == 0 {
      NoneStartIn(bs, WallClock(fromDate, 0));
    } else {
      CountsPartition(bs, fromDate, days - 1);
      NextDayStarts(bs, WallClock(fromDate, 0), fromDate + days - 1);
    }
  }
}
