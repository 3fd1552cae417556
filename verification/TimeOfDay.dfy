/**
 * Wall-clock times and Iran-local days: the string helpers of availability.util.ts and the
 * fixed offset of iran-time.util.ts. A date is its day number since 1970-01-01.
 */
module TimeOfDay {

  const MINUTE_MS := 60_000
  const DAY_MS := 86_400_000
  const IRAN_UTC_OFFSET_MIN := 210

  // ----- days

  function LocalDay(instant: int): int {
    (instant + IRAN_UTC_OFFSET_MIN * MINUTE_MS) / DAY_MS
  }

  // 0 is Sunday; 1970-01-01 was a Thursday.
  function Weekday(day: int): (weekday: int)
    ensures 0 <= weekday < 7
  {
    (day + 4) % 7
  }

  // Day 3 was a Sunday, so the weekday's date of that week is weekday days later; the day is a whole
  // number of weeks from it.
  predicate FallsOn(day: int, weekday: int) {
    0 <= weekday < 7 && (day - 3 - weekday) % 7 == 0
  }

  // Days of the week follow one another from Thursday, 1970-01-01.
  lemma WeekdaysFollow(day: int)
    ensures Weekday(0) == 4 && Weekday(day + 1) == (if Weekday(day) == 6 then 0 else Weekday(day) + 1)
    ensures forall weekday :: Weekday(day) == weekday <==> FallsOn(day, weekday)
  {
    forall weekday
      ensures Weekday(day) == weekday <==> FallsOn(day, weekday)
    {
      WeekdayIs(day, weekday);
    }
  }

  lemma WeekdayIs(day: int, weekday: int)
    ensures Weekday(day) == weekday <==> FallsOn(day, weekday)
  {
  }

  function WallClock(day: int, minute: int): int {
    day * DAY_MS + (minute - IRAN_UTC_OFFSET_MIN) * MINUTE_MS
  }

  // Iran is three and a half hours ahead: the local day 0 begins at half past eight on the evening
  // before the epoch, and every minute of a day has sixty thousand milliseconds.
  lemma WallClockIs(day: int, minute: int)
    ensures WallClock(0, 0) == -12_600_000
    ensures WallClock(day, minute) == WallClock(0, 0) + (1440 * day + minute) * 60_000
  {
  }

  // The instants of a local day are exactly those from its midnight to the next.
  lemma DayOfInstant(day: int, instant: int)
    ensures LocalDay(instant) == day <==> WallClock(day, 0) <= instant < WallClock(day, 24 * 60)
    ensures LocalDay(instant + 86_400_000) == LocalDay(instant) + 1
  {
  }

  // ----- times as text: HH:MM or HH:MM:SS

  predicate Digit(c: char) {
    '0' <= c <= '9'
  }

  predicate Digits(s: string) {
    s != [] && forall i :: 0 <= i < |s| ==> Digit(s[i])
  }

  function Number(s: string): (n: nat)
    requires forall i :: 0 <= i < |s| ==> Digit(s[i])
  {
    if s == [] then 0
    else
      var last := s[|s| - 1];
      assert Digit(last);
      10 * Number(s[..|s| - 1]) + (last as int - '0' as int)
  }

  function Decimal(n: nat): string {
    var last := [('0' as int + n % 10) as char];
    if n < 10 then last else Decimal(n / 10) + last
  }

  // padStart(2, '0')
  function Padded(s: string): string {
    if |s| >= 2 then s else if |s| == 1 then "0" + s else "00"
  }

  // The text before the first colon, and what follows that colon.
  function Field(s: string): string {
    if s == [] || s[0] == ':' then [] else [s[0]] + Field(s[1..])
  }

  function Rest(s: string): string {
    if s == [] then [] else if s[0] == ':' then s[1..] else Rest(s[1..])
  }

  predicate IsTime(s: string) {
    Digits(Field(s)) && Digits(Field(Rest(s)))
  }

  function ParseTimeToMinutes(s: string): nat
    requires IsTime(s)
  {
    Number(Field(s)) * 60 + Number(Field(Rest(s)))
  }

  function MinutesToTime(minutes: nat): string {
    Padded(Decimal(minutes / 60)) + ":" + Padded(Decimal(minutes % 60))
  }

  lemma {:induction false} DecimalIsRead(n: nat)
    ensures Digits(Decimal(n)) && Number(Decimal(n)) == n
  {
    var last := [('0' as int + n % 10) as char];
    assert last[..0] == [];
    if n < 10 {
    } else {
      DecimalIsRead(n / 10);
      var s := Decimal(n);
      assert s[..|s| - 1] == Decimal(n / 10);
    }
  }

  lemma PaddingIsRead(n: nat)
    ensures Digits(Padded(Decimal(n))) && Number(Padded(Decimal(n))) == n
  {
    DecimalIsRead(n);
    var s := Decimal(n);
    if |s| == 1 {
      assert ("0" + s)[..1] == "0" && "0"[..0] == [] && s[..0] == [];
      assert Number("0") == 0;
    }
  }

  lemma {:induction false} FieldStops(s: string, rest: string)
    requires forall i :: 0 <= i < |s| ==> Digit(s[i])
    ensures Field(s + ":" + rest) == s && Rest(s + ":" + rest) == rest
    ensures Field(s) == s
  {
    if s == [] {
      assert s + ":" + rest == ":" + rest;
    } else {
      FieldStops(s[1..], rest);
      assert (s + ":" + rest)[1..] == s[1..] + ":" + rest;
      assert [s[0]] + s[1..] == s;
    }
  }

  // Reading back what was written gives the same minute, however late.
  lemma ParseInvertsMinutesToTime(minutes: nat)
    ensures IsTime(MinutesToTime(minutes)) && ParseTimeToMinutes(MinutesToTime(minutes)) == minutes
  {
    var h, m := Padded(Decimal(minutes / 60)), Padded(Decimal(minutes % 60));
    PaddingIsRead(minutes / 60);
    PaddingIsRead(minutes % 60);
    FieldStops(h, m);
    FieldStops(m, "");
  }

  // A time of day is written as two digits of hours, a colon and two digits of minutes.
  lemma TimesHaveTwoFields(hours: nat, minutes: nat)
    requires hours < 100 && minutes < 60
    ensures MinutesToTime(hours * 60 + minutes) ==
              [('0' as int + hours / 10) as char, ('0' as int + hours % 10) as char, ':',
               ('0' as int + minutes / 10) as char, ('0' as int + minutes % 10) as char]
  {
    TwoDigits(hours);
    TwoDigits(minutes);
    assert (hours * 60 + minutes) / 60 == hours && (hours * 60 + minutes) % 60 == minutes;
  }

  lemma TwoDigits(n: nat)
    requires n < 100
    ensures Padded(Decimal(n)) == [('0' as int + n / 10) as char, ('0' as int + n % 10) as char]
  {
    if n >= 10 {
      assert Decimal(n) == Decimal(n / 10) + [('0' as int + n % 10) as char];
    }
  }

  lemma TwoFieldsAreRead(h: string, m: string, rest: string)
    requires Digits(h) && Digits(m)
    ensures IsTime(h + ":" + (m + ":" + rest)) && ParseTimeToMinutes(h + ":" + (m + ":" + rest)) == Number(h) * 60 + Number(m)
  {
    FieldStops(m, rest);
    FieldStops(h, m + ":" + rest);
  }

  // Seconds, as the database returns them, are ignored.
  lemma SecondsAreIgnored(minutes: nat, seconds: string)
    ensures IsTime(MinutesToTime(minutes) + (":" + seconds))
    ensures ParseTimeToMinutes(MinutesToTime(minutes) + (":" + seconds)) == minutes
  {
    var h, m := Padded(Decimal(minutes / 60)), Padded(Decimal(minutes % 60));
    PaddingIsRead(minutes / 60);
    PaddingIsRead(minutes % 60);
    TwoFieldsAreRead(h, m, seconds);
    assert h + ":" + m + (":" + seconds) == h + ":" + (m + ":" + seconds);
  }

  function Midnight(): (s: string)
    ensures IsTime(s)
  {
    ParseInvertsMinutesToTime(0);
    MinutesToTime(0)
  }
}
