/** The slot engine: subtractInterval and computeAvailableSlots of availability.util.ts. */
module Slots {
  import opened Options
  import opened Sorting
  import opened TimeOfDay

  // A time as the database's time columns hold it.
  type ClockTime = s: string | IsTime(s) witness Midnight()

  datatype ClockRange = ClockRange(openTime: ClockTime, closeTime: ClockTime)

  // The same in minutes since midnight: open at openMin, closed from closeMin.
  datatype Window = Window(openMin: nat, closeMin: nat)

  function Parsed(r: ClockRange): Window {
    Window(ParseTimeToMinutes(r.openTime), ParseTimeToMinutes(r.closeTime))
  }

  predicate Within(w: Window, minute: int) {
    w.openMin <= minute < w.closeMin
  }

  predicate WithinSome(ws: seq<Window>, minute: int) {
    exists i :: 0 <= i < |ws| && Within(ws[i], minute)
  }

  // ----- subtractInterval

  function ReadAll<R>(read: R -> Window, rs: seq<R>): (ws: seq<Window>)
    ensures |ws| == |rs| && forall i :: 0 <= i < |rs| ==> ws[i] == read(rs[i])
  {
    if rs == [] then [] else ReadAll(read, rs[..|rs| - 1]) + [read(rs[|rs| - 1])]
  }

  function ParsedAll(rs: seq<ClockRange>): (ws: seq<Window>)
    ensures |ws| == |rs| && forall i :: 0 <= i < |rs| ==> ws[i] == Parsed(rs[i])
  {
    ReadAll(Parsed, rs)
  }

  function Clock(minutes: nat): (s: ClockTime)
    ensures ParseTimeToMinutes(s) == minutes
  {
    ParseInvertsMinutesToTime(minutes);
    MinutesToTime(minutes)
  }

  // What cutting exc out of w leaves.
  function Cut(w: Window, exc: Window): (ws: seq<Window>)
    ensures |ws| <= 2
  {
    if exc.closeMin <= w.openMin || exc.openMin >= w.closeMin then [w]
    else
      (if exc.openMin > w.openMin then [Window(w.openMin, exc.openMin)] else [])
      + (if exc.closeMin < w.closeMin then [Window(exc.closeMin, w.closeMin)] else [])
  }

  // It is the set difference, however the two intervals lie, the empty and the inverted included.
  lemma CutIsDifference(w: Window, exc: Window, minute: int)
    ensures WithinSome(Cut(w, exc), minute) <==> Within(w, minute) && !Within(exc, minute)
  {
    var rest := Cut(w, exc);
    if exc.closeMin <= w.openMin || exc.openMin >= w.closeMin {
      assert rest[0] == w;
    } else {
      var first := if exc.openMin > w.openMin then [Window(w.openMin, exc.openMin)] else [];
      if exc.openMin > w.openMin { assert rest[0] == Window(w.openMin, exc.openMin); }
      if exc.closeMin < w.closeMin { assert rest[|first|] == Window(exc.closeMin, w.closeMin); }
    }
  }

  // The range up to a minute, and from a minute on, written back as text.
  method Upto(range: ClockRange, closeMin: nat) returns (r: ClockRange)
    ensures Parsed(r) == Window(Parsed(range).openMin, closeMin)
  {
    r := ClockRange(range.openTime, Clock(closeMin));
  }

  method Onward(range: ClockRange, openMin: nat) returns (r: ClockRange)
    ensures Parsed(r) == Window(openMin, Parsed(range).closeMin)
  {
    r := ClockRange(Clock(openMin), range.closeTime);
  }

  // Which pieces remain, whatever the ranges are made of.
  method PiecesLeft<R>(ghost read: R -> Window, w: Window, cut: Window, range: R, before: R, after: R) returns (rest: seq<R>)
    requires read(range) == w
    requires read(before) == Window(w.openMin, cut.openMin) && read(after) == Window(cut.closeMin, w.closeMin)
    ensures ReadAll(read, rest) == Cut(w, cut)
  {
    if cut.closeMin <= w.openMin || cut.openMin >= w.closeMin { return [range]; }
    rest := [];
    if cut.openMin > w.openMin {
      rest := rest + [before];
    }
    if cut.closeMin < w.closeMin {
      rest := rest + [after];
    }
  }

  // The remaining times read as the windows the cut leaves.
  method SubtractInterval(range: ClockRange, exc: ClockRange) returns (rest: seq<ClockRange>)
    ensures ParsedAll(rest) == Cut(Parsed(range), Parsed(exc))
  {
    var w, cut := Parsed(range), Parsed(exc);
    var before := Upto(range, cut.openMin);
    var after := Onward(range, cut.closeMin);
    rest := PiecesLeft(Parsed, w, cut, range, before, after);
  }

  // ----- the query

  // A date is closed altogether, or for part of it.
  datatype DateException = WholeDay | PartDay(hours: ClockRange)

  datatype Taken = Taken(startsAt: int, endsAt: int, worker: Option<nat>)

  datatype SlotQuery = SlotQuery(
    now: int,
    days: nat,
    durationMin: int,
    capacity: int,
    hoursByWeekday: map<int, seq<ClockRange>>,
    exceptionsByDate: map<int, DateException>,
    taken: seq<Taken>,
    requestedWorker: Option<nat>,
    workerOffDates: map<nat, set<int>>)

  datatype DaySlots = DaySlots(date: int, slots: seq<int>)

  // ----- what a slot must satisfy

  predicate Clashes(b: Taken, from: int, to: int) {
    b.startsAt < to && b.endsAt > from
  }

  function OverlapCount(taken: seq<Taken>, from: int, to: int): nat {
    if taken == [] then 0
    else OverlapCount(taken[..|taken| - 1], from, to) + if Clashes(taken[|taken| - 1], from, to) then 1 else 0
  }

  predicate WorkerTaken(taken: seq<Taken>, worker: nat, from: int, to: int) {
    exists i :: 0 <= i < |taken| && taken[i].worker == Some(worker) && Clashes(taken[i], from, to)
  }

  predicate Bookable(q: SlotQuery, from: int, to: int) {
    && from > q.now
    && OverlapCount(q.taken, from, to) < q.capacity
    && (q.requestedWorker.Some? ==> !WorkerTaken(q.taken, q.requestedWorker.value, from, to))
  }

  function HoursOn(q: SlotQuery, day: int): seq<ClockRange> {
    if Weekday(day) in q.hoursByWeekday then q.hoursByWeekday[Weekday(day)] else []
  }

  lemma HoursOnTheWeekday(q: SlotQuery, day: int, weekday: int)
    requires FallsOn(day, weekday)
    ensures HoursOn(q, day) == if weekday in q.hoursByWeekday then q.hoursByWeekday[weekday] else []
  {
    WeekdayIs(day, weekday);
  }

  predicate ClosedOn(q: SlotQuery, day: int) {
    || (day in q.exceptionsByDate && q.exceptionsByDate[day].WholeDay?)
    || (q.requestedWorker.Some? && q.requestedWorker.value in q.workerOffDates && day in q.workerOffDates[q.requestedWorker.value])
  }

  function Pieces(range: ClockRange, exc: Option<DateException>): seq<Window> {
    if exc.Some? && exc.value.PartDay? then Cut(Parsed(range), Parsed(exc.value.hours)) else [Parsed(range)]
  }

  function AllPieces(ranges: seq<ClockRange>, exc: Option<DateException>): seq<Window> {
    if ranges == [] then [] else AllPieces(ranges[..|ranges| - 1], exc) + Pieces(ranges[|ranges| - 1], exc)
  }

  function ExceptionOn(q: SlotQuery, day: int): Option<DateException> {
    if day in q.exceptionsByDate then Some(q.exceptionsByDate[day]) else None
  }

  // The day's working windows once its partial exception is taken out of each.
  function OpenWindows(q: SlotQuery, day: int): seq<Window> {
    AllPieces(HoursOn(q, day), ExceptionOn(q, day))
  }

  lemma SomeWithinBoth(a: seq<Window>, b: seq<Window>, minute: int)
    ensures WithinSome(a + b, minute) <==> WithinSome(a, minute) || WithinSome(b, minute)
  {
    forall i | 0 <= i < |a| + |b|
      ensures (a + b)[i] == if i < |a| then a[i] else b[i - |a|]
    {
    }
    if WithinSome(b, minute) {
      var i :| 0 <= i < |b| && Within(b[i], minute);
      assert (a + b)[|a| + i] == b[i];
    }
    if WithinSome(a, minute) {
      var i :| 0 <= i < |a| && Within(a[i], minute);
      assert (a + b)[i] == a[i];
    }
  }

  predicate ExceptionCovers(exc: Option<DateException>, minute: int) {
    exc.Some? && exc.value.PartDay? && Within(Parsed(exc.value.hours), minute)
  }

  // Taken together the windows are the working hours less the exception, minute by minute.
  lemma {:induction false} OpenWindowsAreTheDifference(ranges: seq<ClockRange>, exc: Option<DateException>, minute: int)
    ensures WithinSome(AllPieces(ranges, exc), minute) <==> WithinSome(ParsedAll(ranges), minute) && !ExceptionCovers(exc, minute)
  {
    if ranges == [] {
    } else {
      var init, last := ranges[..|ranges| - 1], ranges[|ranges| - 1];
      OpenWindowsAreTheDifference(init, exc, minute);
      SomeWithinBoth(AllPieces(init, exc), Pieces(last, exc), minute);
      SomeWithinBoth(ParsedAll(init), [Parsed(last)], minute);
      assert WithinSome([Parsed(last)], minute) <==> Within([Parsed(last)][0], minute);
      if exc.Some? && exc.value.PartDay? {
        CutIsDifference(Parsed(last), Parsed(exc.value.hours), minute);
      }
    }
  }

  // The k-th start of a window, if it ends before the window closes.
  predicate OnGrid(w: Window, durationMin: int, k: nat, minute: int) {
    minute == w.openMin + k * durationMin && minute + durationMin <= w.closeMin
  }

  ghost predicate StartsIn(q: SlotQuery, day: int, w: Window, instant: int) {
    exists k: nat, minute: int :: OnGrid(w, q.durationMin, k, minute) && instant == WallClock(day, minute)
                                  && Bookable(q, instant, WallClock(day, minute + q.durationMin))
  }

  ghost predicate StartsInSome(q: SlotQuery, day: int, ws: seq<Window>, instant: int) {
    exists i :: 0 <= i < |ws| && StartsIn(q, day, ws[i], instant)
  }

  ghost predicate Offered(q: SlotQuery, day: int, instant: int) {
    && q.durationMin > 0 && LocalDay(q.now) <= day < LocalDay(q.now) + q.days && !ClosedOn(q, day)
    && StartsInSome(q, day, OpenWindows(q, day), instant)
  }

  // ----- the walk

  ghost predicate StartsBefore(q: SlotQuery, day: int, w: Window, n: nat, instant: int) {
    exists k: nat, minute: int :: k < n && OnGrid(w, q.durationMin, k, minute) && instant == WallClock(day, minute)
                                  && Bookable(q, instant, WallClock(day, minute + q.durationMin))
  }

  lemma LaterStartsAreLater(d: int, k: nat, n: nat)
    requires d > 0 && n <= k
    ensures n * d <= k * d
  {
  }

  lemma GridEnds(q: SlotQuery, day: int, w: Window, n: nat, instant: int)
    requires q.durationMin > 0 && w.openMin + n * q.durationMin + q.durationMin > w.closeMin
    ensures StartsIn(q, day, w, instant) <==> StartsBefore(q, day, w, n, instant)
  {
    forall k: nat, minute: int | OnGrid(w, q.durationMin, k, minute)
      ensures k < n
    {
      if n <= k {
        LaterStartsAreLater(q.durationMin, k, n);
      }
    }
  }

  lemma OneMoreStart(q: SlotQuery, day: int, w: Window, n: nat, minute: int, instant: int)
    requires OnGrid(w, q.durationMin, n, minute)
    ensures StartsBefore(q, day, w, n + 1, instant) <==>
              || StartsBefore(q, day, w, n, instant)
              || (instant == WallClock(day, minute) && Bookable(q, instant, WallClock(day, minute + q.durationMin)))
  {
  }

  lemma EarlierStartsAreEarlier(q: SlotQuery, day: int, w: Window, n: nat, instant: int)
    requires q.durationMin > 0 && StartsBefore(q, day, w, n, instant)
    ensures instant < WallClock(day, w.openMin + n * q.durationMin)
  {
    var k: nat, minute: int :| k < n && OnGrid(w, q.durationMin, k, minute) && instant == WallClock(day, minute);
    LaterStartsAreLater(q.durationMin, n, k + 1);
    assert (k + 1) * q.durationMin == k * q.durationMin + q.durationMin;
  }

  lemma SomeOfBoth(q: SlotQuery, day: int, a: seq<Window>, b: seq<Window>, instant: int)
    ensures StartsInSome(q, day, a + b, instant) <==> StartsInSome(q, day, a, instant) || StartsInSome(q, day, b, instant)
  {
    if StartsInSome(q, day, a, instant) {
      var i :| 0 <= i < |a| && StartsIn(q, day, a[i], instant);
      assert (a + b)[i] == a[i];
    }
    if StartsInSome(q, day, b, instant) {
      var i :| 0 <= i < |b| && StartsIn(q, day, b[i], instant);
      assert (a + b)[|a| + i] == b[i];
    }
  }

  // How many windows of a day list a start: one for each row of hours that contains it on its grid.
  ghost function Listings(q: SlotQuery, day: int, ws: seq<Window>, instant: int): nat {
    if ws == [] then 0
    else Listings(q, day, ws[..|ws| - 1], instant) + if StartsIn(q, day, ws[|ws| - 1], instant) then 1 else 0
  }

  lemma {:induction false} ListedIfStarts(q: SlotQuery, day: int, ws: seq<Window>, instant: int)
    ensures Listings(q, day, ws, instant) > 0 <==> StartsInSome(q, day, ws, instant)
  {
    if ws == [] {
    } else {
      var init, last := ws[..|ws| - 1], ws[|ws| - 1];
      ListedIfStarts(q, day, init, instant);
      assert ws == init + [last];
      SomeOfBoth(q, day, init, [last], instant);
      assert StartsInSome(q, day, [last], instant) <==> StartsIn(q, day, [last][0], instant);
    }
  }

  lemma {:induction false} ListingsAdd(q: SlotQuery, day: int, a: seq<Window>, b: seq<Window>, instant: int)
    ensures Listings(q, day, a + b, instant) == Listings(q, day, a, instant) + Listings(q, day, b, instant)
  {
    if b == [] {
      assert a + b == a;
    } else {
      ListingsAdd(q, day, a, b[..|b| - 1], instant);
      assert (a + b)[..|a + b| - 1] == a + b[..|b| - 1];
    }
  }

  // A start is listed twice exactly when two rows of hours both have it on their grids.
  lemma {:induction false} ListedTwiceIff(q: SlotQuery, day: int, ws: seq<Window>, instant: int)
    ensures Listings(q, day, ws, instant) >= 2 <==>
              exists i, j :: 0 <= i < j < |ws| && StartsIn(q, day, ws[i], instant) && StartsIn(q, day, ws[j], instant)
  {
    if ws == [] {
    } else {
      var init, last := ws[..|ws| - 1], |ws| - 1;
      ListedTwiceIff(q, day, init, instant);
      ListedIfStarts(q, day, init, instant);
      if Listings(q, day, init, instant) >= 2 {
        var i, j :| 0 <= i < j < |init| && StartsIn(q, day, init[i], instant) && StartsIn(q, day, init[j], instant);
        assert StartsIn(q, day, ws[i], instant) && StartsIn(q, day, ws[j], instant);
      } else if Listings(q, day, init, instant) == 1 && StartsIn(q, day, ws[last], instant) {
        var i :| 0 <= i < |init| && StartsIn(q, day, init[i], instant);
        assert StartsIn(q, day, ws[i], instant);
      }
      if i, j :| 0 <= i < j < |ws| && StartsIn(q, day, ws[i], instant) && StartsIn(q, day, ws[j], instant) {
        assert StartsIn(q, day, init[i], instant);
        if j < last {
          assert StartsIn(q, day, init[j], instant);
        }
      }
    }
  }

  // Terminates because the duration is positive; the guard in ComputeAvailableSlots sees to that.
  method WalkWindow(q: SlotQuery, day: int, w: Window, daySlots: seq<int>) returns (slots: seq<int>)
    requires q.durationMin > 0
    ensures forall t :: multiset(slots)[t] == multiset(daySlots)[t] + if StartsIn(q, day, w, t) then 1 else 0
  {
    slots := daySlots;
    var cursorMin: int := w.openMin;
    ghost var k: nat := 0;
    while cursorMin + q.durationMin <= w.closeMin
      invariant cursorMin == w.openMin + k * q.durationMin
      invariant forall t :: multiset(slots)[t] == multiset(daySlots)[t] + if StartsBefore(q, day, w, k, t) then 1 else 0
      decreases w.closeMin - cursorMin
    {
      var candidateStart := WallClock(day, cursorMin);
      var candidateEnd := WallClock(day, cursorMin + q.durationMin);
      ghost var before := slots;
      if candidateStart > q.now && OverlapCount(q.taken, candidateStart, candidateEnd) < q.capacity {
        if q.requestedWorker.None? || !WorkerTaken(q.taken, q.requestedWorker.value, candidateStart, candidateEnd) {
          slots := slots + [candidateStart];
        }
      }
      forall t
        ensures multiset(slots)[t] == multiset(daySlots)[t] + if StartsBefore(q, day, w, k + 1, t) then 1 else 0
      {
        OneMoreStart(q, day, w, k, cursorMin, t);
        if StartsBefore(q, day, w, k, t) {
          EarlierStartsAreEarlier(q, day, w, k, t);
        }
        assert multiset(slots)[t] == multiset(before)[t] + if t == candidateStart && Bookable(q, t, candidateEnd) then 1 else 0;
      }
      cursorMin := cursorMin + q.durationMin;
      assert (k + 1) * q.durationMin == k * q.durationMin + q.durationMin;
      k := k + 1;
    }
    forall t
      ensures StartsIn(q, day, w, t) <==> StartsBefore(q, day, w, k, t)
    {
      GridEnds(q, day, w, k, t);
    }
  }

  method OpenRanges(range: ClockRange, exc: Option<DateException>) returns (ws: seq<Window>)
    ensures ws == Pieces(range, exc)
  {
    var openRanges := [range];
    if exc.Some? && exc.value.PartDay? {
      openRanges := SubtractInterval(range, exc.value.hours);
    }
    ws := ParsedAll(openRanges);
  }

  method WalkPieces(q: SlotQuery, day: int, ws: seq<Window>, daySlots: seq<int>) returns (slots: seq<int>)
    requires q.durationMin > 0
    ensures forall t :: multiset(slots)[t] == multiset(daySlots)[t] + Listings(q, day, ws, t)
  {
    slots := daySlots;
    var i := 0;
    while i < |ws|
      invariant 0 <= i <= |ws|
      invariant forall t :: multiset(slots)[t] == multiset(daySlots)[t] + Listings(q, day, ws[..i], t)
    {
      assert ws[..i + 1][..i] == ws[..i];
      slots := WalkWindow(q, day, ws[i], slots);
      i := i + 1;
    }
    assert ws[..i] == ws;
  }

  method WalkDay(q: SlotQuery, day: int, ranges: seq<ClockRange>) returns (daySlots: seq<int>)
    requires q.durationMin > 0
    ensures forall t :: multiset(daySlots)[t] == Listings(q, day, AllPieces(ranges, ExceptionOn(q, day)), t)
  {
    daySlots := [];
    var exc := ExceptionOn(q, day);
    var i := 0;
    while i < |ranges|
      invariant 0 <= i <= |ranges|
      invariant forall t :: multiset(daySlots)[t] == Listings(q, day, AllPieces(ranges[..i], exc), t)
    {
      var pieces := OpenRanges(ranges[i], exc);
      ghost var before := AllPieces(ranges[..i], exc);
      assert ranges[..i + 1][..i] == ranges[..i];
      forall t
        ensures Listings(q, day, before + pieces, t) == Listings(q, day, before, t) + Listings(q, day, pieces, t)
      {
        ListingsAdd(q, day, before, pieces, t);
      }
      daySlots := WalkPieces(q, day, pieces, daySlots);
      i := i + 1;
    }
    assert ranges[..i] == ranges;
  }

  // ----- sorting a day's starts

  predicate Ascending(s: seq<int>) {
    forall i, j :: 0 <= i < j < |s| ==> s[i] <= s[j]
  }

  function Instant(t: int): int {
    t
  }

  // ----- the whole window

  // A day's starts: exactly the bookable ones, ascending, each as often as rows of hours list it.
  ghost predicate DayExact(q: SlotQuery, day: int, slots: seq<int>) {
    && Ascending(slots)
    && (forall t :: t in slots <==> Offered(q, day, t))
    && forall t :: t in slots ==> multiset(slots)[t] == Listings(q, day, OpenWindows(q, day), t)
  }

  ghost predicate Exact(q: SlotQuery, results: seq<DaySlots>, upto: int) {
    && (forall i :: 0 <= i < |results| ==>
          LocalDay(q.now) <= results[i].date < upto && results[i].slots != [] && DayExact(q, results[i].date, results[i].slots))
    && (forall i, j :: 0 <= i < j < |results| ==> results[i].date < results[j].date)
    && (forall day, t :: day < upto && Offered(q, day, t) ==> HasDay(results, day))
  }

  predicate HasDay(results: seq<DaySlots>, day: int) {
    exists i :: 0 <= i < |results| && results[i].date == day
  }

  lemma LongerHasDay(before: seq<DaySlots>, more: DaySlots, day: int)
    ensures HasDay(before, day) ==> HasDay(before + [more], day)
    ensures HasDay(before + [more], more.date)
  {
    var results := before + [more];
    assert results[|before|].date == more.date;
    if HasDay(before, day) {
      var i :| 0 <= i < |before| && before[i].date == day;
      assert results[i].date == day;
    }
  }

  lemma OneMoreDay(q: SlotQuery, before: seq<DaySlots>, day: int, slots: seq<int>)
    requires Exact(q, before, day) && LocalDay(q.now) <= day && DayExact(q, day, slots)
    ensures Exact(q, if |slots| > 0 then before + [DaySlots(day, slots)] else before, day + 1)
  {
    var results := if |slots| > 0 then before + [DaySlots(day, slots)] else before;
    forall d, t | d < day + 1 && Offered(q, d, t)
      ensures HasDay(results, d)
    {
      if |slots| > 0 {
        LongerHasDay(before, DaySlots(day, slots), d);
      } else {
        assert t in slots <==> Offered(q, day, t);
      }
    }
  }

  method SlotsOn(q: SlotQuery, day: int) returns (slots: seq<int>)
    requires q.durationMin > 0 && LocalDay(q.now) <= day < LocalDay(q.now) + q.days
    ensures DayExact(q, day, slots)
  {
    if ClosedOn(q, day) { return []; }
    var daySlots := WalkDay(q, day, HoursOn(q, day));
    SortedKeeps(daySlots, Instant);
    slots := SortedBy(daySlots, Instant);
    forall i, j | 0 <= i < j < |slots|
      ensures slots[i] <= slots[j]
    {
      assert Instant(slots[i]) <= Instant(slots[j]);
    }
    forall t
      ensures t in slots <==> Offered(q, day, t)
    {
      assert t in slots <==> multiset(slots)[t] > 0;
      ListedIfStarts(q, day, OpenWindows(q, day), t);
    }
  }

  // Exactly the bookable starts of each open day, days in order and each day's starts ascending.
  method ComputeAvailableSlots(q: SlotQuery) returns (results: seq<DaySlots>)
    ensures Exact(q, results, LocalDay(q.now) + q.days)
  {
    results := [];
    if q.durationMin <= 0 { return; }
    var dayOffset := 0;
    while dayOffset < q.days
      invariant 0 <= dayOffset <= q.days
      invariant Exact(q, results, LocalDay(q.now) + dayOffset)
    {
      var day := LocalDay(q.now + dayOffset * DAY_MS);
      assert day == LocalDay(q.now) + dayOffset;
      var slots := SlotsOn(q, day);
      OneMoreDay(q, results, day, slots);
      if |slots| > 0 {
        results := results + [DaySlots(day, slots)];
      }
      dayOffset := dayOffset + 1;
    }
  }

  lemma StartedStaysWithin(w: Window, durationMin: int, k: nat, start: int, day: int, minute: int)
    requires durationMin > 0 && OnGrid(w, durationMin, k, start)
    requires WallClock(day, start) <= WallClock(day, minute) < WallClock(day, start) + durationMin * MINUTE_MS
    ensures Within(w, minute)
  {
    LaterStartsAreLater(durationMin, k, 0);
  }

  // An offered appointment lies in working hours from its first minute to its last, and clear
  // of the day's exception.
  lemma OfferedStaysOpen(q: SlotQuery, day: int, instant: int, minute: int)
    requires Offered(q, day, instant)
    requires instant <= WallClock(day, minute) < instant + q.durationMin * MINUTE_MS
    ensures WithinSome(ParsedAll(HoursOn(q, day)), minute) && !ExceptionCovers(ExceptionOn(q, day), minute)
  {
    var ws := OpenWindows(q, day);
    var i :| 0 <= i < |ws| && StartsIn(q, day, ws[i], instant);
    var k: nat, start: int :| OnGrid(ws[i], q.durationMin, k, start) && instant == WallClock(day, start)
                              && Bookable(q, instant, WallClock(day, start + q.durationMin));
    StartedStaysWithin(ws[i], q.durationMin, k, start, day, minute);
    OpenWindowsAreTheDifference(HoursOn(q, day), ExceptionOn(q, day), minute);
  }
}
