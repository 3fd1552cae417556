/**
 * availability.service.ts: the rows a preview reads, the times it offers, and which of them
 * createHold would take on the same committed bookings.
 */
module Preview {
  import opened Options
  import opened Records
  import opened Transactions
  import opened Schedule
  import opened Protocol
  import opened Decisions
  import opened WholeRequests
  import opened TimeOfDay
  import opened Slots
  import opened WorkerSafety

  const AVAILABILITY_WINDOW_DAYS := 14

  datatype Row<T> = Row(weekday: int, hours: T)

  type HourRow = Row<ClockRange>

  // A closure of the salon, or of one worker, on a date: whole-day unless both times are set.
  datatype ClosureRow = ClosureRow(date: int, startTime: Option<ClockTime>, endTime: Option<ClockTime>)
  datatype DayOffRow = DayOffRow(worker: Worker, date: int)

  // ----- the maps computeFor builds

  function HoursFor<T>(rows: seq<Row<T>>, weekday: int): seq<T> {
    if rows == [] then []
    else
      var last := rows[|rows| - 1];
      HoursFor(rows[..|rows| - 1], weekday) + if last.weekday == weekday then [last.hours] else []
  }

  lemma OneMoreHourRow<T>(rows: seq<Row<T>>, h: Row<T>, weekday: int)
    ensures HoursFor(rows + [h], weekday) == HoursFor(rows, weekday) + if h.weekday == weekday then [h.hours] else []
  {
    assert (rows + [h])[..|rows|] == rows;
  }

  function Listed<T>(m: map<int, seq<T>>, weekday: int): seq<T> {
    if weekday in m then m[weekday] else []
  }

  method HoursByWeekday<T>(rows: seq<Row<T>>) returns (m: map<int, seq<T>>)
    ensures forall wd: int :: Listed(m, wd) == HoursFor(rows, wd)
  {
    m := map[];
    var i := 0;
    while i < |rows|
      invariant 0 <= i <= |rows|
      invariant forall wd: int :: Listed(m, wd) == HoursFor(rows[..i], wd)
    {
      var h := rows[i];
      assert rows[..i + 1] == rows[..i] + [h];
      ghost var before := m;
      m := m[h.weekday := Listed(m, h.weekday) + [h.hours]];
      forall wd: int
        ensures Listed(m, wd) == HoursFor(rows[..i + 1], wd)
      {
        OneMoreHourRow(rows[..i], h, wd);
        assert Listed(before, wd) == HoursFor(rows[..i], wd);
      }
      i := i + 1;
    }
    assert rows[..i] == rows;
  }

  function Meaning(row: ClosureRow): DateException {
    if row.startTime.None? || row.endTime.None? then WholeDay
    else PartDay(ClockRange(row.startTime.value, row.endTime.value))
  }

  // Of several closures of one date the last read stands.
  function ClosureFor(rows: seq<ClosureRow>, date: int): Option<DateException> {
    if rows == [] then None
    else if rows[|rows| - 1].date == date then Some(Meaning(rows[|rows| - 1]))
    else ClosureFor(rows[..|rows| - 1], date)
  }

  // A date is closed if and only if some row is of that date, and the last such row says for how long.
  lemma {:induction false} LastClosureStands(rows: seq<ClosureRow>, date: int)
    ensures ClosureFor(rows, date).None? <==> forall i :: 0 <= i < |rows| ==> rows[i].date != date
    ensures forall i :: 0 <= i < |rows| && rows[i].date == date && (forall j :: i < j < |rows| ==> rows[j].date != date) ==>
              ClosureFor(rows, date) == Some(if rows[i].startTime.Some? && rows[i].endTime.Some?
                                             then PartDay(ClockRange(rows[i].startTime.value, rows[i].endTime.value)) else WholeDay)
  {
    if rows == [] {
    } else {
      var init := rows[..|rows| - 1];
      LastClosureStands(init, date);
      assert forall i :: 0 <= i < |init| ==> init[i] == rows[i];
    }
  }

  method ExceptionsByDate(rows: seq<ClosureRow>) returns (m: map<int, DateException>)
    ensures forall d: int :: (if d in m then Some(m[d]) else None) == ClosureFor(rows, d)
  {
    m := map[];
    var i := 0;
    while i < |rows|
      invariant 0 <= i <= |rows|
      invariant forall d: int :: (if d in m then Some(m[d]) else None) == ClosureFor(rows[..i], d)
    {
      assert rows[..i + 1][..i] == rows[..i];
      m := m[rows[i].date := Meaning(rows[i])];
      i := i + 1;
    }
    assert rows[..i] == rows;
  }

  method WorkerOffDates(rows: seq<DayOffRow>) returns (m: map<Worker, set<int>>)
    ensures forall worker, date :: worker in m && date in m[worker] <==> DayOffRow(worker, date) in rows
  {
    m := map[];
    var i := 0;
    while i < |rows|
      invariant 0 <= i <= |rows|
      invariant forall worker, date :: worker in m && date in m[worker] <==> DayOffRow(worker, date) in rows[..i]
    {
      var e := rows[i];
      assert rows[..i + 1] == rows[..i] + [e];
      m := m[e.worker := (if e.worker in m then m[e.worker] else {}) + {e.date}];
      i := i + 1;
    }
    assert rows[..i] == rows;
  }

  // ----- the booking query

  predicate Fetched(b: Booking, salon: Salon, from: int, to: int) {
    b.salon == salon && SlotBlocking(b.status) && b.startsAt < to && b.endsAt > from
  }

  function FetchedRows(bookings: seq<Booking>, salon: Salon, from: int, to: int): seq<Taken> {
    if bookings == [] then []
    else
      var last := bookings[|bookings| - 1];
      FetchedRows(bookings[..|bookings| - 1], salon, from, to)
      + if Fetched(last, salon, from, to) then [Taken(last.startsAt, last.endsAt, last.worker)] else []
  }

  function Before(db: Tables): Tables
    requires db.bookings != []
  {
    db.(bookings := db.bookings[..|db.bookings| - 1])
  }

  // The prefilter drops no booking that touches an interval of the window, so counting the
  // fetched rows is counting the salon's bookings.
  lemma {:induction false} FetchedCountIsSalonCount(db: Tables, salon: Salon, from: int, to: int, startsAt: int, endsAt: int)
    requires from <= startsAt && endsAt <= to
    ensures OverlapCount(FetchedRows(db.bookings, salon, from, to), startsAt, endsAt) == |SalonBusy(db, salon, startsAt, endsAt, None)|
    decreases |db.bookings|
  {
    if db.bookings == [] {
      assert SalonBusy(db, salon, startsAt, endsAt, None) == {};
    } else {
      var b := db.bookings[|db.bookings| - 1];
      FetchedCountIsSalonCount(Before(db), salon, from, to, startsAt, endsAt);
      OneMoreCounted(FetchedRows(Before(db).bookings, salon, from, to), Taken(b.startsAt, b.endsAt, b.worker),
                     Fetched(b, salon, from, to), startsAt, endsAt);
      OneMoreBusy(db, salon, startsAt, endsAt);
    }
  }

  lemma BusyGrows(db: Tables, init: Tables, salon: Salon, startsAt: int, endsAt: int)
    requires db.bookings != [] && init.bookings == db.bookings[..|db.bookings| - 1]
    ensures var last := |db.bookings| - 1;
            var was := SalonBusy(init, salon, startsAt, endsAt, None);
            && last !in was
            && SalonBusy(db, salon, startsAt, endsAt, None)
               == if db.bookings[last].salon == salon && Overlaps(db.bookings[last], startsAt, endsAt) then was + {last} else was
  {
    var last := |db.bookings| - 1;
    var was, is' := SalonBusy(init, salon, startsAt, endsAt, None), SalonBusy(db, salon, startsAt, endsAt, None);
    forall id: BookingId
      ensures id in is' <==> id in was || (id == last && db.bookings[last].salon == salon && Overlaps(db.bookings[last], startsAt, endsAt))
    {
      if id < last {
        assert init.bookings[id] == db.bookings[id];
      }
    }
  }

  lemma OneMoreBusy(db: Tables, salon: Salon, startsAt: int, endsAt: int)
    requires db.bookings != []
    ensures var b := db.bookings[|db.bookings| - 1];
            |SalonBusy(db, salon, startsAt, endsAt, None)|
            == |SalonBusy(Before(db), salon, startsAt, endsAt, None)| + if b.salon == salon && Overlaps(b, startsAt, endsAt) then 1 else 0
  {
    BusyGrows(db, Before(db), salon, startsAt, endsAt);
  }

  lemma OneMoreCounted(init: seq<Taken>, last: Taken, fetched: bool, startsAt: int, endsAt: int)
    ensures OverlapCount(init + if fetched then [last] else [], startsAt, endsAt)
            == OverlapCount(init, startsAt, endsAt) + if fetched && Clashes(last, startsAt, endsAt) then 1 else 0
  {
    if fetched {
      assert (init + [last])[..|init|] == init;
    } else {
      assert init + [] == init;
    }
  }

  // What the preview can see of a worker: his bookings at this salon.
  function WorkerBusyAt(db: Tables, salon: Salon, worker: Worker, startsAt: int, endsAt: int): set<BookingId> {
    set id: BookingId | id < |db.bookings| && db.bookings[id].salon == salon
                        && db.bookings[id].worker == Some(worker) && Overlaps(db.bookings[id], startsAt, endsAt)
  }

  lemma {:induction false} FetchedWorkerIsBusyHere(db: Tables, salon: Salon, worker: Worker, from: int, to: int,
                                                   startsAt: int, endsAt: int)
    requires from <= startsAt && endsAt <= to
    ensures WorkerTaken(FetchedRows(db.bookings, salon, from, to), worker, startsAt, endsAt)
            <==> WorkerBusyAt(db, salon, worker, startsAt, endsAt) != {}
    decreases |db.bookings|
  {
    if db.bookings == [] {
    } else {
      var last := |db.bookings| - 1;
      var b := db.bookings[last];
      FetchedWorkerIsBusyHere(Before(db), salon, worker, from, to, startsAt, endsAt);
      var init := FetchedRows(Before(db).bookings, salon, from, to);
      var rows := FetchedRows(db.bookings, salon, from, to);
      OneMoreTaken(init, rows, Taken(b.startsAt, b.endsAt, b.worker), Fetched(b, salon, from, to), worker, startsAt, endsAt);
      var busy := WorkerBusyAt(Before(db), salon, worker, startsAt, endsAt);
      if b.salon == salon && b.worker == Some(worker) && Overlaps(b, startsAt, endsAt) {
        assert last in WorkerBusyAt(db, salon, worker, startsAt, endsAt);
      } else {
        assert WorkerBusyAt(db, salon, worker, startsAt, endsAt) == busy;
      }
    }
  }

  lemma OneMoreTaken(init: seq<Taken>, rows: seq<Taken>, last: Taken, fetched: bool, worker: Worker, startsAt: int, endsAt: int)
    requires rows == init + if fetched then [last] else []
    ensures WorkerTaken(rows, worker, startsAt, endsAt) <==>
              WorkerTaken(init, worker, startsAt, endsAt) || (fetched && last.worker == Some(worker) && Clashes(last, startsAt, endsAt))
  {
    if WorkerTaken(init, worker, startsAt, endsAt) {
      var i :| 0 <= i < |init| && init[i].worker == Some(worker) && Clashes(init[i], startsAt, endsAt);
      assert rows[i] == init[i];
    }
    if fetched {
      assert rows[|init|] == last;
    }
  }

  // ----- computeFor

  datatype Calendar = Calendar(hours: seq<HourRow>, closures: seq<ClosureRow>, daysOff: seq<DayOffRow>)

  // Working hours end by midnight, as a time column can hold no more than 24:00.
  predicate ClosesByMidnight(hours: seq<HourRow>) {
    forall i :: 0 <= i < |hours| ==> Parsed(hours[i].hours).closeMin <= 24 * 60
  }

  function WindowsOn(cal: Calendar, day: int): seq<Window> {
    AllPieces(HoursFor(cal.hours, Weekday(day)), ClosureFor(cal.closures, day))
  }

  predicate OpenOn(cal: Calendar, day: int, worker: Option<Worker>) {
    && ClosureFor(cal.closures, day) != Some(WholeDay)
    && (worker.Some? ==> DayOffRow(worker.value, day) !in cal.daysOff)
  }

  ghost predicate StartsOnGrid(ws: seq<Window>, durationMin: int, day: int, instant: int) {
    exists i, k: nat, minute: int :: 0 <= i < |ws| && OnGrid(ws[i], durationMin, k, minute) && instant == WallClock(day, minute)
  }

  // Some row of hours of that day of the week has the start on the grid of what the closure leaves
  // of it.
  ghost predicate StartsInHours(rows: seq<HourRow>, exc: Option<DateException>, durationMin: int, day: int, instant: int) {
    exists i :: 0 <= i < |rows| && FallsOn(day, rows[i].weekday) && StartsOnGrid(Pieces(rows[i].hours, exc), durationMin, day, instant)
  }

  // How many rows of hours list it.
  ghost function RowTimes(rows: seq<HourRow>, exc: Option<DateException>, durationMin: int, day: int, instant: int): nat {
    if rows == [] then 0
    else
      var last := rows[|rows| - 1];
      RowTimes(rows[..|rows| - 1], exc, durationMin, day, instant)
      + if FallsOn(day, last.weekday) then GridTimes(Pieces(last.hours, exc), durationMin, day, instant) else 0
  }

  // Each as often as there are windows with it on their grids.
  ghost function GridTimes(ws: seq<Window>, durationMin: int, day: int, instant: int): nat {
    if ws == [] then 0
    else
      GridTimes(ws[..|ws| - 1], durationMin, day, instant)
      + if StartsOnGrid([ws[|ws| - 1]], durationMin, day, instant) then 1 else 0
  }

  lemma GridOfBoth(a: seq<Window>, b: seq<Window>, durationMin: int, day: int, instant: int)
    ensures StartsOnGrid(a + b, durationMin, day, instant) <==>
              StartsOnGrid(a, durationMin, day, instant) || StartsOnGrid(b, durationMin, day, instant)
  {
    if StartsOnGrid(a, durationMin, day, instant) {
      var i, k: nat, minute: int :| 0 <= i < |a| && OnGrid(a[i], durationMin, k, minute) && instant == WallClock(day, minute);
      assert OnGrid((a + b)[i], durationMin, k, minute);
    }
    if StartsOnGrid(b, durationMin, day, instant) {
      var i, k: nat, minute: int :| 0 <= i < |b| && OnGrid(b[i], durationMin, k, minute) && instant == WallClock(day, minute);
      assert OnGrid((a + b)[|a| + i], durationMin, k, minute);
    }
  }

  lemma {:induction false} GridTimesAdd(a: seq<Window>, b: seq<Window>, durationMin: int, day: int, instant: int)
    ensures GridTimes(a + b, durationMin, day, instant) == GridTimes(a, durationMin, day, instant) + GridTimes(b, durationMin, day, instant)
  {
    if b == [] {
      assert a + b == a;
    } else {
      GridTimesAdd(a, b[..|b| - 1], durationMin, day, instant);
      assert (a + b)[..|a + b| - 1] == a + b[..|b| - 1];
    }
  }

  lemma OneMoreRowListed(rows: seq<HourRow>, h: HourRow, exc: Option<DateException>, durationMin: int, day: int, instant: int)
    ensures StartsInHours(rows + [h], exc, durationMin, day, instant) <==>
              || StartsInHours(rows, exc, durationMin, day, instant)
              || (FallsOn(day, h.weekday) && StartsOnGrid(Pieces(h.hours, exc), durationMin, day, instant))
  {
    var more := rows + [h];
    assert more[|rows|] == h;
    if StartsInHours(rows, exc, durationMin, day, instant) {
      var i :| 0 <= i < |rows| && FallsOn(day, rows[i].weekday) && StartsOnGrid(Pieces(rows[i].hours, exc), durationMin, day, instant);
      assert more[i] == rows[i];
    }
  }

  // The windows of a day are those of its rows: a start is on their grids if some row of that day of
  // the week lists it, and as often as rows do.
  lemma {:induction false} GridOfRows(rows: seq<HourRow>, exc: Option<DateException>, durationMin: int, day: int, instant: int)
    ensures var ws := AllPieces(HoursFor(rows, Weekday(day)), exc);
            && (StartsOnGrid(ws, durationMin, day, instant) <==> StartsInHours(rows, exc, durationMin, day, instant))
            && GridTimes(ws, durationMin, day, instant) == RowTimes(rows, exc, durationMin, day, instant)
  {
    if rows == [] {
    } else {
      var init, last := rows[..|rows| - 1], rows[|rows| - 1];
      GridOfRows(init, exc, durationMin, day, instant);
      WeekdayIs(day, last.weekday);
      assert rows == init + [last];
      OneMoreRowListed(init, last, exc, durationMin, day, instant);
      if FallsOn(day, last.weekday) {
        OneMoreRange(HoursFor(init, Weekday(day)), last.hours, exc, durationMin, day, instant);
      } else {
        assert HoursFor(init, Weekday(day)) + [] == HoursFor(init, Weekday(day));
      }
    }
  }

  lemma OneMoreRange(hours: seq<ClockRange>, range: ClockRange, exc: Option<DateException>, durationMin: int, day: int, instant: int)
    ensures var ws, more := AllPieces(hours, exc), AllPieces(hours + [range], exc);
            && (StartsOnGrid(more, durationMin, day, instant) <==>
                  StartsOnGrid(ws, durationMin, day, instant) || StartsOnGrid(Pieces(range, exc), durationMin, day, instant))
            && GridTimes(more, durationMin, day, instant)
               == GridTimes(ws, durationMin, day, instant) + GridTimes(Pieces(range, exc), durationMin, day, instant)
  {
    assert (hours + [range])[..|hours|] == hours;
    GridOfBoth(AllPieces(hours, exc), Pieces(range, exc), durationMin, day, instant);
    GridTimesAdd(AllPieces(hours, exc), Pieces(range, exc), durationMin, day, instant);
  }

  // Someone asking for this service, perhaps with one worker.
  datatype Ask = Ask(salon: Salon, cal: Calendar, now: int, durationMin: int, worker: Option<Worker>)

  function SlotAsked(ask: Ask, customer: Customer, instant: int): Slot {
    Slot(customer, ask.salon, instant, instant + ask.durationMin * MINUTE_MS, ask.worker)
  }

  // A start on the day's grid in the next fourteen days, still to come.
  ghost predicate OnOpenGrid(ask: Ask, day: int, instant: int) {
    && ask.durationMin > 0 && LocalDay(ask.now) <= day < LocalDay(ask.now) + 14
    && OpenOn(ask.cal, day, ask.worker) && instant > ask.now
    && StartsInHours(ask.cal.hours, ClosureFor(ask.cal.closures, day), ask.durationMin, day, instant)
  }

  // A chair is free, and so is the worker as far as this salon's bookings tell.
  predicate FreeHere(site: Site, db: Tables, ask: Ask, instant: int) {
    var endsAt := instant + ask.durationMin * MINUTE_MS;
    && RoomFor(site, db, ask.salon, instant, endsAt, None)
    && (ask.worker.Some? ==> WorkerBusyAt(db, ask.salon, ask.worker.value, instant, endsAt) == {})
  }

  ghost predicate Shown(site: Site, db: Tables, ask: Ask, day: int, instant: int) {
    OnOpenGrid(ask, day, instant) && FreeHere(site, db, ask, instant)
  }

  // The query computeFor makes of the rows.
  predicate Asks(q: SlotQuery, site: Site, db: Tables, ask: Ask) {
    && ask.salon in site.capacity && q.capacity == site.capacity[ask.salon]
    && q.now == ask.now && q.durationMin == ask.durationMin && q.requestedWorker == ask.worker
    && q.days == AVAILABILITY_WINDOW_DAYS
    && q.taken == FetchedRows(db.bookings, ask.salon, q.now, q.now + AVAILABILITY_WINDOW_DAYS * DAY_MS)
  }

  ghost predicate Reads(q: SlotQuery, cal: Calendar) {
    && (forall day :: OpenWindows(q, day) == WindowsOn(cal, day))
    && (forall day :: ClosedOn(q, day) <==> !OpenOn(cal, day, q.requestedWorker))
  }

  predicate EarlyEnough(ws: seq<Window>) {
    forall i :: 0 <= i < |ws| ==> ws[i].closeMin <= 24 * 60
  }

  lemma {:induction false} WindowsCloseByMidnight(ranges: seq<ClockRange>, exc: Option<DateException>)
    requires forall i :: 0 <= i < |ranges| ==> Parsed(ranges[i]).closeMin <= 24 * 60
    ensures EarlyEnough(AllPieces(ranges, exc))
  {
    if ranges == [] {
    } else {
      WindowsCloseByMidnight(ranges[..|ranges| - 1], exc);
      var last := Pieces(ranges[|ranges| - 1], exc);
      assert forall i :: 0 <= i < |last| ==> last[i].closeMin <= 24 * 60;
    }
  }

  lemma {:induction false} HoursCloseByMidnight(rows: seq<HourRow>, weekday: int)
    requires ClosesByMidnight(rows)
    ensures forall i :: 0 <= i < |HoursFor(rows, weekday)| ==> Parsed(HoursFor(rows, weekday)[i]).closeMin <= 24 * 60
  {
    if rows == [] {
    } else {
      HoursCloseByMidnight(rows[..|rows| - 1], weekday);
    }
  }

  lemma EndsADurationLater(day: int, minute: int, durationMin: int)
    ensures WallClock(day, minute + durationMin) == WallClock(day, minute) + durationMin * MINUTE_MS
  {
  }

  // The last of the fourteen days ends before fourteen times twenty-four hours are over.
  lemma EndsInWindow(now: int, day: int, minute: int)
    requires day < LocalDay(now) + AVAILABILITY_WINDOW_DAYS && minute <= 24 * 60
    ensures WallClock(day, minute) <= now + AVAILABILITY_WINDOW_DAYS * DAY_MS
  {
  }

  lemma BookableMeansFree(site: Site, db: Tables, ask: Ask, q: SlotQuery, day: int, minute: int, closeMin: int)
    requires Asks(q, site, db, ask)
    requires day < LocalDay(q.now) + AVAILABILITY_WINDOW_DAYS && minute + q.durationMin <= closeMin <= 24 * 60
    ensures var instant := WallClock(day, minute);
            Bookable(q, instant, WallClock(day, minute + q.durationMin)) <==> instant > q.now && FreeHere(site, db, ask, instant)
  {
    EndsInWindow(q.now, day, minute + q.durationMin);
    EndsADurationLater(day, minute, q.durationMin);
    var from, to := WallClock(day, minute), WallClock(day, minute + q.durationMin);
    if from > q.now {
      FetchedCountIsSalonCount(db, ask.salon, q.now, q.now + AVAILABILITY_WINDOW_DAYS * DAY_MS, from, to);
      if ask.worker.Some? {
        FetchedWorkerIsBusyHere(db, ask.salon, ask.worker.value, q.now, q.now + AVAILABILITY_WINDOW_DAYS * DAY_MS, from, to);
      }
    }
  }

  lemma StartIsFree(site: Site, db: Tables, ask: Ask, q: SlotQuery, day: int, w: Window, instant: int)
    requires Asks(q, site, db, ask) && day < LocalDay(q.now) + AVAILABILITY_WINDOW_DAYS && w.closeMin <= 24 * 60
    ensures StartsIn(q, day, w, instant) ==>
              instant > q.now && FreeHere(site, db, ask, instant) && StartsOnGrid([w], q.durationMin, day, instant)
  {
    if StartsIn(q, day, w, instant) {
      var k: nat, minute: int :| OnGrid(w, q.durationMin, k, minute) && instant == WallClock(day, minute)
                                 && Bookable(q, instant, WallClock(day, minute + q.durationMin));
      BookableMeansFree(site, db, ask, q, day, minute, w.closeMin);
      assert OnGrid([w][0], q.durationMin, k, minute);
    }
  }

  lemma OneGridOfMany(ws: seq<Window>, i: nat, durationMin: int, day: int, instant: int)
    requires i < |ws| && StartsOnGrid([ws[i]], durationMin, day, instant)
    ensures StartsOnGrid(ws, durationMin, day, instant)
  {
    var j, k: nat, minute: int :| 0 <= j < 1 && OnGrid([ws[i]][j], durationMin, k, minute) && instant == WallClock(day, minute);
    assert OnGrid(ws[i], durationMin, k, minute);
  }

  lemma OfferedIsShown(site: Site, db: Tables, ask: Ask, q: SlotQuery, day: int, instant: int)
    requires Asks(q, site, db, ask) && Reads(q, ask.cal) && EarlyEnough(WindowsOn(ask.cal, day))
    ensures Offered(q, day, instant) ==> Shown(site, db, ask, day, instant)
  {
    var ws := WindowsOn(ask.cal, day);
    GridOfRows(ask.cal.hours, ClosureFor(ask.cal.closures, day), ask.durationMin, day, instant);
    assert OpenWindows(q, day) == ws && (ClosedOn(q, day) <==> !OpenOn(ask.cal, day, ask.worker));
    if Offered(q, day, instant) {
      var i :| 0 <= i < |ws| && StartsIn(q, day, ws[i], instant);
      StartIsFree(site, db, ask, q, day, ws[i], instant);
      OneGridOfMany(ws, i, q.durationMin, day, instant);
    }
  }

  lemma ShownIsOffered(site: Site, db: Tables, ask: Ask, q: SlotQuery, day: int, instant: int)
    requires Asks(q, site, db, ask) && Reads(q, ask.cal) && EarlyEnough(WindowsOn(ask.cal, day))
    ensures Shown(site, db, ask, day, instant) ==> Offered(q, day, instant)
  {
    var ws := WindowsOn(ask.cal, day);
    GridOfRows(ask.cal.hours, ClosureFor(ask.cal.closures, day), ask.durationMin, day, instant);
    assert OpenWindows(q, day) == ws && (ClosedOn(q, day) <==> !OpenOn(ask.cal, day, ask.worker));
    if Shown(site, db, ask, day, instant) {
      var i, k: nat, minute: int :| 0 <= i < |ws| && OnGrid(ws[i], q.durationMin, k, minute) && instant == WallClock(day, minute);
      BookableMeansFree(site, db, ask, q, day, minute, ws[i].closeMin);
      assert StartsIn(q, day, ws[i], instant);
    }
  }

  lemma OfferedMeansShown(site: Site, db: Tables, ask: Ask, q: SlotQuery, day: int, instant: int)
    requires Asks(q, site, db, ask) && Reads(q, ask.cal) && ClosesByMidnight(ask.cal.hours)
    ensures Offered(q, day, instant) <==> Shown(site, db, ask, day, instant)
  {
    HoursCloseByMidnight(ask.cal.hours, Weekday(day));
    WindowsCloseByMidnight(HoursFor(ask.cal.hours, Weekday(day)), ClosureFor(ask.cal.closures, day));
    OfferedIsShown(site, db, ask, q, day, instant);
    ShownIsOffered(site, db, ask, q, day, instant);
  }

  // Reading the query's maps is reading the rows they were built from.
  lemma MapsReadRows(q: SlotQuery, cal: Calendar)
    requires forall wd: int :: Listed(q.hoursByWeekday, wd) == HoursFor(cal.hours, wd)
    requires forall d: int :: (if d in q.exceptionsByDate then Some(q.exceptionsByDate[d]) else None) == ClosureFor(cal.closures, d)
    requires forall worker, date :: worker in q.workerOffDates && date in q.workerOffDates[worker] <==> DayOffRow(worker, date) in cal.daysOff
    ensures Reads(q, cal)
  {
    forall day
      ensures OpenWindows(q, day) == WindowsOn(cal, day)
      ensures ClosedOn(q, day) <==> !OpenOn(cal, day, q.requestedWorker)
    {
      assert HoursOn(q, day) == Listed(q.hoursByWeekday, Weekday(day));
      assert ExceptionOn(q, day) == ClosureFor(cal.closures, day);
    }
  }

  // Exactly these starts, each as often as rows of hours list it, days in order, each day's starts
  // ascending, no day empty.
  ghost predicate ShowsExactly(results: seq<DaySlots>, site: Site, db: Tables, ask: Ask) {
    && (forall i :: 0 <= i < |results| ==> results[i].slots != [] && Ascending(results[i].slots))
    && (forall i, j :: 0 <= i < j < |results| ==> results[i].date < results[j].date)
    && (forall i, t :: 0 <= i < |results| ==> (t in results[i].slots <==> Shown(site, db, ask, results[i].date, t)))
    && (forall i, t :: 0 <= i < |results| && t in results[i].slots ==>
          multiset(results[i].slots)[t]
          == RowTimes(ask.cal.hours, ClosureFor(ask.cal.closures, results[i].date), ask.durationMin, results[i].date, t))
    && (forall day, t :: Shown(site, db, ask, day, t) ==> HasDay(results, day))
  }

  // Whether a start is free does not depend on the row that lists it.
  lemma {:induction false} ListingsAreGridTimes(site: Site, db: Tables, ask: Ask, q: SlotQuery, day: int, ws: seq<Window>, instant: int)
    requires Asks(q, site, db, ask) && day < LocalDay(q.now) + AVAILABILITY_WINDOW_DAYS && EarlyEnough(ws)
    requires instant > q.now && FreeHere(site, db, ask, instant)
    ensures Listings(q, day, ws, instant) == GridTimes(ws, q.durationMin, day, instant)
  {
    if ws == [] {
    } else {
      ListingsAreGridTimes(site, db, ask, q, day, ws[..|ws| - 1], instant);
      ListsIfOnGrid(site, db, ask, q, day, ws[|ws| - 1], instant);
    }
  }

  lemma ListsIfOnGrid(site: Site, db: Tables, ask: Ask, q: SlotQuery, day: int, w: Window, instant: int)
    requires Asks(q, site, db, ask) && day < LocalDay(q.now) + AVAILABILITY_WINDOW_DAYS && w.closeMin <= 24 * 60
    requires instant > q.now && FreeHere(site, db, ask, instant)
    ensures StartsIn(q, day, w, instant) <==> StartsOnGrid([w], q.durationMin, day, instant)
  {
    StartIsFree(site, db, ask, q, day, w, instant);
    if StartsOnGrid([w], q.durationMin, day, instant) {
      var i, k: nat, minute: int :| 0 <= i < 1 && OnGrid([w][i], q.durationMin, k, minute) && instant == WallClock(day, minute);
      BookableMeansFree(site, db, ask, q, day, minute, w.closeMin);
      assert OnGrid(w, q.durationMin, k, minute);
    }
  }

  lemma ShownCounts(site: Site, db: Tables, ask: Ask, q: SlotQuery, day: int, instant: int)
    requires Asks(q, site, db, ask) && Reads(q, ask.cal) && ClosesByMidnight(ask.cal.hours)
    ensures Shown(site, db, ask, day, instant) ==>
              Listings(q, day, OpenWindows(q, day), instant)
              == RowTimes(ask.cal.hours, ClosureFor(ask.cal.closures, day), ask.durationMin, day, instant)
  {
    GridOfRows(ask.cal.hours, ClosureFor(ask.cal.closures, day), ask.durationMin, day, instant);
    HoursCloseByMidnight(ask.cal.hours, Weekday(day));
    WindowsCloseByMidnight(HoursFor(ask.cal.hours, Weekday(day)), ClosureFor(ask.cal.closures, day));
    if Shown(site, db, ask, day, instant) {
      assert OpenWindows(q, day) == WindowsOn(ask.cal, day);
      ListingsAreGridTimes(site, db, ask, q, day, WindowsOn(ask.cal, day), instant);
    }
  }

  lemma ExactShowsExactly(site: Site, db: Tables, ask: Ask, q: SlotQuery, results: seq<DaySlots>)
    requires Asks(q, site, db, ask) && Reads(q, ask.cal) && ClosesByMidnight(ask.cal.hours)
    requires Exact(q, results, LocalDay(q.now) + q.days)
    ensures ShowsExactly(results, site, db, ask)
  {
    forall day, t
      ensures Offered(q, day, t) <==> Shown(site, db, ask, day, t)
    {
      OfferedMeansShown(site, db, ask, q, day, t);
    }
    forall i, t | 0 <= i < |results| && t in results[i].slots
      ensures multiset(results[i].slots)[t]
              == RowTimes(ask.cal.hours, ClosureFor(ask.cal.closures, results[i].date), ask.durationMin, results[i].date, t)
    {
      ShownCounts(site, db, ask, q, results[i].date, t);
    }
  }

  lemma ComputesExactly(site: Site, db: Tables, ask: Ask, q: SlotQuery, results: seq<DaySlots>)
    requires Asks(q, site, db, ask) && ClosesByMidnight(ask.cal.hours) && Exact(q, results, LocalDay(q.now) + q.days)
    requires forall wd: int :: Listed(q.hoursByWeekday, wd) == HoursFor(ask.cal.hours, wd)
    requires forall d: int ::
               (if d in q.exceptionsByDate then Some(q.exceptionsByDate[d]) else None) == ClosureFor(ask.cal.closures, d)
    requires forall worker, date ::
               worker in q.workerOffDates && date in q.workerOffDates[worker] <==> DayOffRow(worker, date) in ask.cal.daysOff
    ensures ShowsExactly(results, site, db, ask)
  {
    MapsReadRows(q, ask.cal);
    ExactShowsExactly(site, db, ask, q, results);
  }

  method ComputeEligible(site: Site, db: Tables, ask: Ask) returns (results: seq<DaySlots>)
    requires ask.salon in site.capacity && ClosesByMidnight(ask.cal.hours)
    ensures ShowsExactly(results, site, db, ask)
  {
    var hours := HoursByWeekday(ask.cal.hours);
    var exceptions := ExceptionsByDate(ask.cal.closures);
    var daysOff := WorkerOffDates(ask.cal.daysOff);
    var taken := FetchedRows(db.bookings, ask.salon, ask.now, ask.now + AVAILABILITY_WINDOW_DAYS * DAY_MS);
    var q := SlotQuery(ask.now, AVAILABILITY_WINDOW_DAYS, ask.durationMin, site.capacity[ask.salon], hours, exceptions, taken,
                       ask.worker, daysOff);
    results := ComputeAvailableSlots(q);
    ComputesExactly(site, db, ask, q, results);
  }

  // Whoever is asked for, the times offered are exactly those on the open grid with a chair free
  // and the worker not booked at this salon.
  method ComputeFor(site: Site, db: Tables, ask: Ask, eligible: bool) returns (results: seq<DaySlots>)
    requires ask.salon in site.capacity && ClosesByMidnight(ask.cal.hours)
    ensures ask.worker.Some? && !eligible ==> results == []
    ensures ask.worker.None? || eligible ==> ShowsExactly(results, site, db, ask)
  {
    if ask.worker.Some? && !eligible { return []; }
    results := ComputeEligible(site, db, ask);
  }

  // ----- what createHold says of the times offered

  function FitnessOf(active: bool, eligible: bool): Fitness {
    if !active then Inactive else if !eligible then Ineligible else Fit
  }

  predicate WorksHere(site: Site, ask: Ask) {
    ask.worker.Some? ==> ask.worker.value in site.home && site.home[ask.worker.value] == ask.salon
  }

  // A worker of the salon has all his bookings there.
  lemma BusyHereIsBusy(site: Site, db: Tables, worker: Worker, startsAt: int, endsAt: int)
    requires StaffAtHome(site, db) && worker in site.home
    ensures WorkerBusyAt(db, site.home[worker], worker, startsAt, endsAt) == WorkerBusy(db, worker, startsAt, endsAt, None)
  {
  }

  // The preview asks whether the worker may do the service, but neither whether he is of this
  // salon nor whether he is active. So an eligible worker's offered time passes createHold's salon
  // and worker checks if and only if he is of this salon and active, and with no worker asked for
  // every offered time does.
  lemma OfferedPassesIff(site: Site, db: Tables, ask: Ask, active: bool, day: int, instant: int, customer: Customer)
    requires StaffAtHome(site, db) && Shown(site, db, ask, day, instant)
    ensures PlaceRefusal(site, db, SlotAsked(ask, customer, instant), FitnessOf(active, true)).None?
            <==> ask.worker.None? || (WorksHere(site, ask) && active)
  {
    if ask.worker.Some? && WorksHere(site, ask) {
      BusyHereIsBusy(site, db, ask.worker.value, instant, instant + ask.durationMin * MINUTE_MS);
    }
  }

  // And no time is withheld: what createHold would take on the open grid is offered.
  lemma AcceptedIsOffered(site: Site, db: Tables, ask: Ask, fitness: Fitness, day: int, instant: int, customer: Customer)
    requires StaffAtHome(site, db) && OnOpenGrid(ask, day, instant)
    requires PlaceRefusal(site, db, SlotAsked(ask, customer, instant), fitness).None?
    ensures Shown(site, db, ask, day, instant) && (ask.worker.Some? ==> fitness == Fit)
  {
    if ask.worker.Some? {
      BusyHereIsBusy(site, db, ask.worker.value, instant, instant + ask.durationMin * MINUTE_MS);
    }
  }

  // A worker of another salon is offered whenever a chair is, busy or not: createHold refuses him.
  lemma ForeignWorkerIsOffered(site: Site, db: Tables, ask: Ask, worker: Worker, fitness: Fitness, day: int, instant: int,
                               customer: Customer)
    requires StaffAtHome(site, db) && ask.worker.None? && Shown(site, db, ask, day, instant)
    requires (worker in site.home ==> site.home[worker] != ask.salon) && DayOffRow(worker, day) !in ask.cal.daysOff
    ensures Shown(site, db, ask.(worker := Some(worker)), day, instant)
    ensures PlaceRefusal(site, db, SlotAsked(ask.(worker := Some(worker)), customer, instant), fitness) == Some(WorkerNotFound)
  {
    assert WorkerBusyAt(db, ask.salon, worker, instant, instant + ask.durationMin * MINUTE_MS) == {};
  }

  // One chair here, one there, and the one worker there busy from ten to eleven.
  const TWO_SALONS := Site(map[0 := 1, 1 := 1], map[0 := 1], 5, 5, map[])
  const TEN_TO_ELEVEN := Slot(7, 1, WallClock(1, 600), WallClock(1, 660), Some(0))

  function AskingAcrossTown(): Ask {
    Ask(0, Calendar([Row(Weekday(1), ClockRange(Clock(600), Clock(660)))], [], []), WallClock(1, 0), 30, None)
  }

  lemma TenIsOnTheGrid()
    ensures OnOpenGrid(AskingAcrossTown(), 1, WallClock(1, 600))
  {
    var rows := AskingAcrossTown().cal.hours;
    WeekdayIs(1, rows[0].weekday);
    assert Pieces(rows[0].hours, None) == [Window(600, 660)];
    assert OnGrid([Window(600, 660)][0], 30, 0, 600);
    assert StartsOnGrid(Pieces(rows[0].hours, None), 30, 1, WallClock(1, 600));
  }

  lemma ChairAcrossTownIsFree(db: Tables)
    requires db.bookings == [ManualBooking(0, TEN_TO_ELEVEN, 100, 24)]
    ensures StaffAtHome(TWO_SALONS, db) && Shown(TWO_SALONS, db, AskingAcrossTown(), 1, WallClock(1, 600))
    ensures WorkerBusy(db, 0, WallClock(1, 600), WallClock(1, 630), None) != {}
  {
    TenIsOnTheGrid();
    assert SalonBusy(db, 0, WallClock(1, 600), WallClock(1, 630), None) == {};
    assert 0 in WorkerBusy(db, 0, WallClock(1, 600), WallClock(1, 630), None);
  }

  // He is offered here at ten, although he is busy there then; createHold refuses him.
  lemma BusyForeignWorkerIsOffered(db: Tables)
    requires db.bookings == [ManualBooking(0, TEN_TO_ELEVEN, 100, 24)]
    ensures var ask, at := AskingAcrossTown().(worker := Some(0)), WallClock(1, 600);
            && Shown(TWO_SALONS, db, ask, 1, at)
            && WorkerBusy(db, 0, at, at + ask.durationMin * MINUTE_MS, None) != {}
            && PlaceRefusal(TWO_SALONS, db, SlotAsked(ask, 3, at), Fit) == Some(WorkerNotFound)
  {
    ChairAcrossTownIsFree(db);
    ForeignWorkerIsOffered(TWO_SALONS, db, AskingAcrossTown(), 0, Fit, 1, WallClock(1, 600), 3);
  }

  // On quiet tables a customer within his limits can book any time the preview offers him, if the
  // worker he asks for is an active one of the salon.
  lemma OfferedTimeCanBeHeld(site: Site, w: World, rid: RequestId, ask: Ask, day: int, instant: int, customer: Customer,
                             terms: HoldTerms, code: Code) returns (steps: seq<Step>)
    requires w.requests == map[] && w.salonLock == map[] && w.customerLock == map[] && w.couponLock == map[] && w.now == ask.now
    requires StaffAtHome(site, w.db) && Shown(site, w.db, ask, day, instant) && WorksHere(site, ask)
    requires ValidTerms(WithCode(terms, code)) && CodeRefusal(site, w.db, w.now, ask.salon, customer, code).None?
    requires LimitsRefusal(site, w.db, SlotAsked(ask, customer, instant), w.now).None?
    ensures Possible(site, w, steps)
    ensures After(site, w, steps) ==
              w.(db := Run(w.db, PlaceHold(w.now, SlotAsked(ask, customer, instant), WithCode(terms, code))))
  {
    OfferedPassesIff(site, w.db, ask, true, day, instant, customer);
    steps := AcceptedHoldIsARun(site, w, rid, SlotAsked(ask, customer, instant), terms, code);
  }
}
