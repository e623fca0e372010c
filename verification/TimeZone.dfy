/** UTC and local time conversions (mymuduo/base/TimeZone.cc). */
module TimeZone {
  import opened CInt
  import opened Date

  const SECONDS_PER_DAY := 86400

  /** The fields of `struct tm` that the conversions read or write. */
  datatype Tm = Tm(year: int, mon: int, mday: int, hour: int, min: int, sec: int, wday: int, yday: int, isDst: bool,
                   gmtOff: int)

  // ---------- UTC ----------

  datatype Hms = Hms(hour: int, min: int, sec: int)

  function FillHMS(seconds: nat): Hms {
    var minutes := seconds / 60;
    Hms(minutes / 60, minutes % 60, seconds % 60)
  }

  function ToUtcTime(secondsSinceEpoch: int): Tm {
    var seconds0 := Mod(secondsSinceEpoch, SECONDS_PER_DAY);
    var days0 := Div(secondsSinceEpoch, SECONDS_PER_DAY);
    var seconds := if seconds0 < 0 then seconds0 + SECONDS_PER_DAY else seconds0;
    var days := if seconds0 < 0 then days0 - 1 else days0;
    var hms := FillHMS(seconds);
    var date := days + JULIAN_DAY_OF_1970_01_01;
    var ymd := GetYearMonthDay(date);
    Tm(ymd.year - 1900, ymd.month - 1, ymd.day, hms.hour, hms.min, hms.sec,
       WeekDay(date), date - GetJulianDayNumber(ymd.year, 1, 1), false, 0)
  }

  function FromUtcFields(year: int, month: int, day: int, hour: int, minute: int, seconds: int): int {
    var secondsInDay := hour * 3600 + minute * 60 + seconds;
    var days := GetJulianDayNumber(year, month, day) - JULIAN_DAY_OF_1970_01_01;
    days * SECONDS_PER_DAY + secondsInDay
  }

  function FromUtcTime(utc: Tm): int {
    FromUtcFields(utc.year + 1900, utc.mon + 1, utc.mday, utc.hour, utc.min, utc.sec)
  }

  /** The first second of 1 March of year -4800, where `GetYearMonthDay` starts to be meaningful. */
  const FIRST_SECOND := (-32044 - 2440588) * SECONDS_PER_DAY

  function DateOf(t: Tm): YearMonthDay {
    YearMonthDay(t.year + 1900, t.mon + 1, t.mday)
  }

  predicate ValidTm(t: Tm) {
    && ValidDate(DateOf(t)) && InEpoch(DateOf(t))
    && 0 <= t.hour < 24 && 0 <= t.min < 60 && 0 <= t.sec < 60
  }

  lemma EpochDay()
    ensures JULIAN_DAY_OF_1970_01_01 == 2440588
  {
    assert GetJulianDayNumber(1970, 1, 1) == 2440588 by {
      assert Div(14 - 1, 12) == 1;
      assert Div(153 * 10 + 2, 5) == 306;
      assert Div(6769, 4) == 1692 && Div(6769, 100) == 67 && Div(6769, 400) == 16;
    }
  }

  /** The repaired truncating division is floor division, on both sides of the epoch. */
  lemma DaySplit(t: int) returns (days: int, seconds: int)
    ensures t == days * SECONDS_PER_DAY + seconds && 0 <= seconds < SECONDS_PER_DAY
    ensures var date := days + JULIAN_DAY_OF_1970_01_01;
            var ymd := GetYearMonthDay(date);
            var hms := FillHMS(seconds);
            ToUtcTime(t) == Tm(ymd.year - 1900, ymd.month - 1, ymd.day, hms.hour, hms.min, hms.sec,
                               WeekDay(date), date - GetJulianDayNumber(ymd.year, 1, 1), false, 0)
  {
    hide GetYearMonthDay, GetJulianDayNumber, FillHMS, WeekDay;
    var seconds0 := Mod(t, SECONDS_PER_DAY);
    var days0 := Div(t, SECONDS_PER_DAY);
    seconds := if seconds0 < 0 then seconds0 + SECONDS_PER_DAY else seconds0;
    days := if seconds0 < 0 then days0 - 1 else days0;
  }

  lemma FillHMSFields(seconds: nat)
    requires seconds < SECONDS_PER_DAY
    ensures var h := FillHMS(seconds);
            && 0 <= h.hour < 24 && 0 <= h.min < 60 && 0 <= h.sec < 60
            && h.hour * 3600 + h.min * 60 + h.sec == seconds
  {
  }

  /** Seconds to calendar fields and back, for negative times too, with every field in its documented range. */
  lemma UtcRoundTrip(t: int)
    requires t >= FIRST_SECOND
    ensures FromUtcTime(ToUtcTime(t)) == t
    ensures ValidTm(ToUtcTime(t))
  {
    hide GetYearMonthDay, GetJulianDayNumber, ToUtcTime, FillHMS, DaysInMonth;
    EpochDay();
    var days, seconds := DaySplit(t);
    FillHMSFields(seconds);
    assert days >= -32044 - 2440588;
    DayToDateRoundTrip(days + JULIAN_DAY_OF_1970_01_01);
  }

  /** The last second whose day number `GetYearMonthDay` can take apart in 32-bit arithmetic. */
  const LAST_SECOND := (536_838_867 - 2440588) * SECONDS_PER_DAY + SECONDS_PER_DAY - 1

  /** Up to there no step of `ToUtcTime` leaves the range of `int`. */
  lemma UtcNoOverflow(t: int) returns (days: int, seconds: int)
    requires FIRST_SECOND <= t <= LAST_SECOND
    ensures t == days * SECONDS_PER_DAY + seconds && 0 <= seconds < SECONDS_PER_DAY
    ensures FitsInt32(Div(t, SECONDS_PER_DAY)) && FitsInt32(Mod(t, SECONDS_PER_DAY)) && FitsInt32(days)
    ensures var date := days + JULIAN_DAY_OF_1970_01_01;
            var year := GetYearMonthDay(date).year;
            && FitsInt32(date) && YearMonthDayFits(date) && FitsInt32(year - 1900) && FitsInt32(date + 1)
            && JulianDayFits(YearMonthDay(year, 1, 1)) && FitsInt32(date - GetJulianDayNumber(year, 1, 1))
  {
    hide GetYearMonthDay, GetJulianDayNumber, ToUtcTime, YearMonthDayFits, JulianDayFits;
    EpochDay();
    days, seconds := DaySplit(t);
    YearMonthDayNoOverflow(days + JULIAN_DAY_OF_1970_01_01);
    DayOfYearNoOverflow(days + JULIAN_DAY_OF_1970_01_01);
  }

  lemma UtcRoundTripBack(tm: Tm)
    requires ValidTm(tm)
    ensures var back := ToUtcTime(FromUtcTime(tm));
            && DateOf(back) == DateOf(tm)
            && back.hour == tm.hour && back.min == tm.min && back.sec == tm.sec
  {
    hide GetYearMonthDay, GetJulianDayNumber, ToUtcTime, FillHMS, DaysInMonth;
    EpochDay();
    var t := FromUtcTime(tm);
    var days, seconds := DaySplit(t);
    var secondsInDay := tm.hour * 3600 + tm.min * 60 + tm.sec;
    assert days == JulianDay(DateOf(tm)) - 2440588 && seconds == secondsInDay;
    FillHMSUnique(seconds, tm.hour, tm.min, tm.sec);
    DateToDayRoundTrip(DateOf(tm));
  }

  lemma FillHMSUnique(seconds: nat, hour: nat, min: nat, sec: nat)
    requires seconds == hour * 3600 + min * 60 + sec && min < 60 && sec < 60
    ensures FillHMS(seconds) == Hms(hour, min, sec)
  {
    assert seconds / 60 == hour * 60 + min;
  }

  predicate YearDayIsRight(tm: Tm) {
    0 <= tm.mon <= 11 && 0 <= tm.yday <= 365 && tm.yday == DayOfYear(tm.year + 1900, tm.mon + 1, tm.mday)
  }

  /** `tm_yday` counts the days since the first of January, 0 to 365. */
  lemma YearDay(t: int)
    requires t >= FIRST_SECOND && ToUtcTime(t).year + 1900 > -4800
    ensures YearDayIsRight(ToUtcTime(t))
  {
    hide GetYearMonthDay, GetJulianDayNumber, ToUtcTime, FillHMS, DaysInMonth;
    EpochDay();
    var days, seconds := DaySplit(t);
    DayToDateRoundTrip(days + JULIAN_DAY_OF_1970_01_01);
    DayNumberWithinYear(DateOf(ToUtcTime(t)));
  }

  /** `tm_wday` counts from Sunday - 1 January 1970 was a Thursday - on exactly the days of `WeekDayIff`. */
  lemma UtcWeekDayIff(t: int)
    ensures var days := t / SECONDS_PER_DAY;
            ToUtcTime(t).wday == (days + 4) % 7 <==> days >= -2440589 || (days + 4) % 7 == 0
  {
    hide GetYearMonthDay, GetJulianDayNumber, ToUtcTime, FillHMS, WeekDay;
    EpochDay();
    var days, seconds := DaySplit(t);
    assert days == t / SECONDS_PER_DAY;
    WeekDayIff(days + JULIAN_DAY_OF_1970_01_01);
  }

  // ---------- Local time ----------

  datatype Transition = Transition(gmttime: int, localtime: int, localtimeIdx: int)
  datatype Localtime = Localtime(gmtOffset: int, isDst: bool)
  datatype Data = Data(transitions: seq<Transition>, localtimes: seq<Localtime>)

  /** The member that `Comp` compares. */
  function Key(t: Transition, gmt: bool): int {
    if gmt then t.gmttime else t.localtime
  }

  predicate Increasing(ts: seq<Transition>, gmt: bool) {
    forall i, j :: 0 <= i < j < |ts| ==> Key(ts[i], gmt) < Key(ts[j], gmt)
  }

  predicate ValidIndexes(data: Data) {
    && |data.localtimes| > 0
    && forall i :: 0 <= i < |data.transitions| ==> 0 <= data.transitions[i].localtimeIdx < |data.localtimes|
  }

  /** `std::lower_bound`: the first transition whose key is not below `key`. */
  method LowerBound(ts: seq<Transition>, key: int, gmt: bool) returns (first: nat)
    requires Increasing(ts, gmt)
    ensures first <= |ts|
    ensures forall i :: 0 <= i < first ==> Key(ts[i], gmt) < key
    ensures forall i :: first <= i < |ts| ==> key <= Key(ts[i], gmt)
  {
    first := 0;
    var count := |ts|;
    while count > 0
      invariant 0 <= first <= first + count <= |ts|
      invariant forall i :: 0 <= i < first ==> Key(ts[i], gmt) < key
      invariant forall i :: first + count <= i < |ts| ==> key <= Key(ts[i], gmt)
    {
      var step := count / 2;
      if Key(ts[first + step], gmt) < key {
        first := first + step + 1;
        count := count - (step + 1);
      } else {
        count := step;
      }
    }
  }

  /** Index of the last transition at or before `key`, by scanning from the end; -1 if there is none. */
  function LastAtOrBefore(ts: seq<Transition>, key: int, gmt: bool): (i: int)
    ensures -1 <= i < |ts|
  {
    if ts == [] then -1
    else if Key(ts[|ts| - 1], gmt) <= key then |ts| - 1
    else LastAtOrBefore(ts[..|ts| - 1], key, gmt)
  }

  lemma {:induction false} LastAtOrBeforeIs(ts: seq<Transition>, key: int, gmt: bool, i: int)
    requires Increasing(ts, gmt)
    requires -1 <= i < |ts|
    requires i >= 0 ==> Key(ts[i], gmt) <= key
    requires i + 1 < |ts| ==> key < Key(ts[i + 1], gmt)
    ensures LastAtOrBefore(ts, key, gmt) == i
  {
    var n := |ts|;
    if n > 0 && i < n - 1 {
      assert key < Key(ts[n - 1], gmt) by {
        if i + 1 < n - 1 { assert Key(ts[i + 1], gmt) < Key(ts[n - 1], gmt); }
      }
      LastAtOrBeforeIs(ts[..n - 1], key, gmt, i);
    }
  }

  lemma {:induction false} LastAtOrBeforeBrackets(ts: seq<Transition>, key: int, gmt: bool)
    ensures var i := LastAtOrBefore(ts, key, gmt);
            && (i >= 0 ==> Key(ts[i], gmt) <= key)
            && (i + 1 < |ts| ==> key < Key(ts[i + 1], gmt))
  {
    if ts != [] && key < Key(ts[|ts| - 1], gmt) {
      LastAtOrBeforeBrackets(ts[..|ts| - 1], key, gmt);
    }
  }

  /** The local time type in force after transition `i`; before all of them, the first type in the file. */
  function InForce(data: Data, i: int): Localtime
    requires ValidIndexes(data) && -1 <= i < |data.transitions|
  {
    if i < 0 then data.localtimes[0] else data.localtimes[data.transitions[i].localtimeIdx]
  }

  function LocaltimeAt(data: Data, key: int, gmt: bool): Localtime
    requires ValidIndexes(data)
  {
    InForce(data, LastAtOrBefore(data.transitions, key, gmt))
  }

  /** The binary search with its step back finds the last transition at or before the sentry, in either order. */
  method FindLocaltime(data: Data, key: int, gmt: bool) returns (local: Localtime)
    requires ValidIndexes(data) && Increasing(data.transitions, gmt)
    ensures local == LocaltimeAt(data, key, gmt)
  {
    var ts := data.transitions;
    if |ts| == 0 || key < Key(ts[0], gmt) {
      LastAtOrBeforeIs(ts, key, gmt, -1);
      local := data.localtimes[0];
    } else {
      var transI := LowerBound(ts, key, gmt);
      if transI != |ts| {
        if key != Key(ts[transI], gmt) {
          transI := transI - 1;
        }
        LastAtOrBeforeIs(ts, key, gmt, transI);
        local := data.localtimes[ts[transI].localtimeIdx];
      } else {
        LastAtOrBeforeIs(ts, key, gmt, |ts| - 1);
        local := data.localtimes[ts[|ts| - 1].localtimeIdx];
      }
    }
  }

  function LocalTm(data: Data, seconds: int): Tm
    requires ValidIndexes(data)
  {
    var local := LocaltimeAt(data, seconds, true);
    ToUtcTime(seconds + local.gmtOffset).(isDst := local.isDst, gmtOff := local.gmtOffset)
  }

  method ToLocalTime(data: Data, seconds: int) returns (localTime: Tm)
    requires ValidIndexes(data) && Increasing(data.transitions, true)
    ensures localTime == LocalTm(data, seconds)
    ensures var local := LocaltimeAt(data, seconds, true);
            localTime.isDst == local.isDst && localTime.gmtOff == local.gmtOffset
  {
    var local := FindLocaltime(data, seconds, true);
    localTime := ToUtcTime(seconds + local.gmtOffset);
    localTime := localTime.(isDst := local.isDst, gmtOff := local.gmtOffset);
  }

  /** The wall clock `tm` names the hour repeated after summer time ends: one hour earlier than the table says. */
  predicate InRepeatedHour(data: Data, tm: Tm)
    requires ValidIndexes(data)
  {
    var seconds := FromUtcTime(tm);
    var tryTm := LocalTm(data, seconds - LocaltimeAt(data, seconds, false).gmtOffset);
    tm.isDst && !tryTm.isDst && tryTm.hour == tm.hour && tryTm.min == tm.min
  }

  function SecondsOfLocal(data: Data, tm: Tm): int
    requires ValidIndexes(data)
  {
    var seconds := FromUtcTime(tm);
    seconds - LocaltimeAt(data, seconds, false).gmtOffset - (if InRepeatedHour(data, tm) then 3600 else 0)
  }

  method FromLocalTime(data: Data, localTm: Tm) returns (result: int)
    requires ValidIndexes(data) && Increasing(data.transitions, true) && Increasing(data.transitions, false)
    ensures result == SecondsOfLocal(data, localTm)
  {
    var seconds := FromUtcTime(localTm);
    var local := FindLocaltime(data, seconds, false);
    if localTm.isDst {
      var tryTm := ToLocalTime(data, seconds - local.gmtOffset);
      if !tryTm.isDst && tryTm.hour == localTm.hour && tryTm.min == localTm.min {
        seconds := seconds - 3600;
      }
    }
    result := seconds - local.gmtOffset;
  }

  // ---------- When local time round-trips ----------

  /** What `readTimeZoneFile` builds from 32-bit fields, with transitions further apart than any two offsets differ. */
  predicate WellFormed(data: Data) {
    var ts := data.transitions;
    && ValidIndexes(data)
    && (forall i :: 0 <= i < |ts| ==>
          FitsInt32(ts[i].gmttime) && ts[i].localtime == ts[i].gmttime + data.localtimes[ts[i].localtimeIdx].gmtOffset)
    && (forall a :: 0 <= a < |data.localtimes| ==> FitsInt32(data.localtimes[a].gmtOffset))
    && (forall i, a, b :: 0 <= i < |ts| - 1 && 0 <= a < |data.localtimes| && 0 <= b < |data.localtimes| ==>
          ts[i + 1].gmttime - ts[i].gmttime > data.localtimes[a].gmtOffset - data.localtimes[b].gmtOffset)
  }

  lemma WellFormedIndexes(data: Data)
    requires WellFormed(data)
    ensures ValidIndexes(data)
  {
  }

  const FIRST_LOCAL_SECOND := FIRST_SECOND + 4 * 0x8000_0000

  ghost predicate RoundTripsEverywhere(data: Data)
    requires ValidIndexes(data)
  {
    forall t :: t >= FIRST_LOCAL_SECOND ==> SecondsOfLocal(data, LocalTm(data, t)) == t
  }

  /** Clocks only ever go back by the one hour that ends summer time. */
  predicate FallsBackOnlyFromDst(data: Data)
    requires ValidIndexes(data)
  {
    forall i :: 0 <= i < |data.transitions| ==> FallBackIsDstEnd(InForce(data, i - 1), InForce(data, i))
  }

  predicate FallBackIsDstEnd(before: Localtime, after: Localtime) {
    before.gmtOffset > after.gmtOffset ==>
      before.isDst && !after.isDst && before.gmtOffset == after.gmtOffset + 3600
  }

  lemma LocalKey(data: Data, i: int)
    requires WellFormed(data) && 0 <= i < |data.transitions|
    ensures data.transitions[i].localtime == data.transitions[i].gmttime + InForce(data, i).gmtOffset
  {
  }

  lemma {:induction false} GmtOrder(data: Data, i: int, j: int)
    requires WellFormed(data) && 0 <= i < j < |data.transitions|
    ensures data.transitions[i].gmttime < data.transitions[j].gmttime
    decreases j
  {
    if i < j - 1 { GmtOrder(data, i, j - 1); }
    assert data.transitions[j - 1 + 1].gmttime - data.transitions[j - 1].gmttime >
           data.localtimes[0].gmtOffset - data.localtimes[0].gmtOffset;
  }

  lemma {:induction false} LocalOrder(data: Data, i: int, j: int)
    requires WellFormed(data) && 0 <= i < j < |data.transitions|
    ensures data.transitions[i].localtime < data.transitions[j].localtime
    decreases j
  {
    hide WellFormed;
    WellFormedIndexes(data);
    if i < j - 1 { LocalOrder(data, i, j - 1); }
    LocalKey(data, j - 1);
    LocalKey(data, j);
    GapAfter(data, j - 1, InForceIdx(data, j - 1), InForceIdx(data, j));
  }

  function InForceIdx(data: Data, i: int): int
    requires ValidIndexes(data) && -1 <= i < |data.transitions|
  {
    if i < 0 then 0 else data.transitions[i].localtimeIdx
  }

  lemma GapAfter(data: Data, i: int, a: int, b: int)
    requires WellFormed(data) && 0 <= i < |data.transitions| - 1
    requires 0 <= a < |data.localtimes| && 0 <= b < |data.localtimes|
    ensures data.transitions[i + 1].gmttime - data.transitions[i].gmttime >
            data.localtimes[a].gmtOffset - data.localtimes[b].gmtOffset
  {
  }

  /** A well-formed table is sorted both ways, as the binary search requires. */
  lemma WellFormedIncreasing(data: Data)
    requires WellFormed(data)
    ensures Increasing(data.transitions, true) && Increasing(data.transitions, false)
  {
    forall i, j | 0 <= i < j < |data.transitions|
      ensures Key(data.transitions[i], true) < Key(data.transitions[j], true)
      ensures Key(data.transitions[i], false) < Key(data.transitions[j], false)
    {
      GmtOrder(data, i, j);
      LocalOrder(data, i, j);
    }
  }

  lemma GmtInt32(data: Data, i: int)
    requires WellFormed(data) && 0 <= i < |data.transitions|
    ensures FitsInt32(data.transitions[i].gmttime)
  {
  }

  lemma InForceInt32(data: Data, i: int)
    requires WellFormed(data) && -1 <= i < |data.transitions|
    ensures FitsInt32(InForce(data, i).gmtOffset)
  {
  }

  /** The wall-clock seconds survive the trip through calendar fields. */
  lemma LocalTmSeconds(data: Data, t: int)
    requires WellFormed(data) && t >= FIRST_SECOND + 0x8000_0000
    ensures var local := LocaltimeAt(data, t, true);
            && FromUtcTime(LocalTm(data, t)) == t + local.gmtOffset
            && LocalTm(data, t).isDst == local.isDst
  {
    hide ToUtcTime, FromUtcFields;
    InForceInt32(data, LastAtOrBefore(data.transitions, t, true));
    UtcRoundTrip(t + LocaltimeAt(data, t, true).gmtOffset);
  }

  /** The local fields say which instant they name: their seconds less the offset that comes with them, which is the
      one in force. */
  lemma LocalTmNames(data: Data, t: int)
    requires ValidIndexes(data) && t + LocaltimeAt(data, t, true).gmtOffset >= FIRST_SECOND
    ensures var tm, local := LocalTm(data, t), LocaltimeAt(data, t, true);
            && ValidTm(tm) && FromUtcTime(tm) - tm.gmtOff == t
            && tm.gmtOff == local.gmtOffset && tm.isDst == local.isDst
  {
    hide ToUtcTime, FromUtcFields, LocaltimeAt;
    UtcRoundTrip(t + LocaltimeAt(data, t, true).gmtOffset);
  }

  /** Where the clock was not turned back over `t`, the local ordering finds the same period as the GMT one. */
  lemma OutsideRepeat(data: Data, t: int, i: int)
    requires WellFormed(data) && t >= FIRST_LOCAL_SECOND
    requires i == LastAtOrBefore(data.transitions, t, true)
    requires i + 1 < |data.transitions| ==> t + InForce(data, i).gmtOffset < data.transitions[i + 1].localtime
    ensures SecondsOfLocal(data, LocalTm(data, t)) == t
  {
    hide ToUtcTime, FromUtcTime, WellFormed, LastAtOrBefore, Increasing, LocalTm;
    WellFormedIndexes(data);
    WellFormedIncreasing(data);
    LocalTmSeconds(data, t);
    LastAtOrBeforeBrackets(data.transitions, t, true);
    if i >= 0 { LocalKey(data, i); }
    LastAtOrBeforeIs(data.transitions, t + InForce(data, i).gmtOffset, false, i);
  }

  /** Over a repeated stretch the local ordering finds the following period, and so does the code's second look-up. */
  lemma FollowingPeriod(data: Data, t: int, i: int)
    requires WellFormed(data)
    requires i == LastAtOrBefore(data.transitions, t, true) && i + 1 < |data.transitions|
    requires t + InForce(data, i).gmtOffset >= data.transitions[i + 1].localtime
    ensures var s := t + InForce(data, i).gmtOffset;
            && InForce(data, i).gmtOffset > InForce(data, i + 1).gmtOffset
            && LastAtOrBefore(data.transitions, s, false) == i + 1
            && LastAtOrBefore(data.transitions, s - InForce(data, i + 1).gmtOffset, true) == i + 1
  {
    hide WellFormed, LastAtOrBefore, Increasing;
    WellFormedIndexes(data);
    WellFormedIncreasing(data);
    var ts := data.transitions;
    var before, after := InForce(data, i), InForce(data, i + 1);
    LastAtOrBeforeBrackets(ts, t, true);
    LocalKey(data, i + 1);
    if i + 2 < |ts| {
      LocalKey(data, i + 2);
      assert data.localtimes[InForceIdx(data, i)] == before;
      GapAfter(data, i + 1, InForceIdx(data, i), InForceIdx(data, i + 2));
      GapAfter(data, i + 1, InForceIdx(data, i), InForceIdx(data, i + 1));
    }
    LastAtOrBeforeIs(ts, t + before.gmtOffset, false, i + 1);
    LastAtOrBeforeIs(ts, t + before.gmtOffset - after.gmtOffset, true, i + 1);
  }

  lemma InsideRepeat(data: Data, t: int, i: int)
    requires WellFormed(data) && t >= FIRST_LOCAL_SECOND
    requires i == LastAtOrBefore(data.transitions, t, true) && i + 1 < |data.transitions|
    requires t + InForce(data, i).gmtOffset >= data.transitions[i + 1].localtime
    ensures var before, after := InForce(data, i), InForce(data, i + 1);
            && before.gmtOffset > after.gmtOffset
            && SecondsOfLocal(data, LocalTm(data, t)) ==
               t + (before.gmtOffset - after.gmtOffset) - (if before.isDst && !after.isDst then 3600 else 0)
  {
    hide ToUtcTime, FromUtcTime, WellFormed, LastAtOrBefore, ValidIndexes;
    WellFormedIndexes(data);
    FollowingPeriod(data, t, i);
    LocalTmSeconds(data, t);
    var before, after := InForce(data, i), InForce(data, i + 1);
    var s := t + before.gmtOffset;
    assert s - after.gmtOffset + after.gmtOffset == s;
    assert LocalTm(data, s - after.gmtOffset) == ToUtcTime(s).(isDst := after.isDst, gmtOff := after.gmtOffset);
    assert LocalTm(data, t) == ToUtcTime(s).(isDst := before.isDst, gmtOff := before.gmtOffset);
  }

  /** Local time round-trips at every instant exactly for the tables whose clocks only go back to end summer time. */
  lemma LocalRoundTripIff(data: Data)
    requires WellFormed(data)
    ensures RoundTripsEverywhere(data) <==> FallsBackOnlyFromDst(data)
  {
    if FallsBackOnlyFromDst(data) {
      forall t | t >= FIRST_LOCAL_SECOND ensures SecondsOfLocal(data, LocalTm(data, t)) == t {
        RoundTripAt(data, t);
      }
    } else {
      var i :| 0 <= i < |data.transitions| && !FallBackIsDstEnd(InForce(data, i - 1), InForce(data, i));
      NoRoundTripJustBefore(data, i);
    }
  }

  lemma RoundTripAt(data: Data, t: int)
    requires WellFormed(data) && FallsBackOnlyFromDst(data) && t >= FIRST_LOCAL_SECOND
    ensures SecondsOfLocal(data, LocalTm(data, t)) == t
  {
    hide ToUtcTime, FromUtcTime, SecondsOfLocal, LocalTm, WellFormed;
    WellFormedIndexes(data);
    var i := LastAtOrBefore(data.transitions, t, true);
    if i + 1 < |data.transitions| && t + InForce(data, i).gmtOffset >= data.transitions[i + 1].localtime {
      InsideRepeat(data, t, i);
      assert FallBackIsDstEnd(InForce(data, i + 1 - 1), InForce(data, i + 1));
    } else {
      OutsideRepeat(data, t, i);
    }
  }

  /** The last second before a backward step that does not end summer time comes back as another second. */
  lemma NoRoundTripJustBefore(data: Data, i: int)
    requires WellFormed(data) && 0 <= i < |data.transitions|
    requires !FallBackIsDstEnd(InForce(data, i - 1), InForce(data, i))
    ensures var t := data.transitions[i].gmttime - 1;
            t >= FIRST_LOCAL_SECOND && SecondsOfLocal(data, LocalTm(data, t)) != t
  {
    hide ToUtcTime, FromUtcTime, SecondsOfLocal, LocalTm, WellFormed;
    WellFormedIndexes(data);
    WellFormedIncreasing(data);
    var t := data.transitions[i].gmttime - 1;
    GmtInt32(data, i);
    LocalKey(data, i);
    if i > 0 { GmtOrder(data, i - 1, i); }
    LastAtOrBeforeIs(data.transitions, t, true, i - 1);
    InsideRepeat(data, t, i - 1);
  }

  /** The usual table: one standard offset, summer time one hour ahead of it. */
  predicate StandardAndDst(data: Data, standard: int) {
    forall a :: 0 <= a < |data.localtimes| ==>
      data.localtimes[a].gmtOffset == (if data.localtimes[a].isDst then standard + 3600 else standard)
  }

  lemma StandardAndDstRoundTrips(data: Data, standard: int, t: int)
    requires WellFormed(data) && StandardAndDst(data, standard) && t >= FIRST_LOCAL_SECOND
    ensures SecondsOfLocal(data, LocalTm(data, t)) == t
  {
    hide ToUtcTime, FromUtcTime, SecondsOfLocal, LocalTm, WellFormed;
    WellFormedIndexes(data);
    RoundTripAt(data, t);
  }
}
