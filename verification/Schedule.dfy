/** When an announcement happens: its wall-clock date and time in a city turned
    into UTC instants, and those instants printed back. The offset chosen from the
    local wall clock is compared with the one Directive 2000/84/EC gives the instant. */
module Schedule {
  import opened Prelude
  import opened Calendar

  const DEFAULT_DURATION_MIN := 180

  datatype Schedule = Schedule(startUtc: int, endUtc: int, offsetMin: int)

  // ---- the EU rule, on instants ------------------------------------------------

  /** 0 is a Sunday, and day 0 of the epoch gives 4. */
  function Weekday(day: int): int { (day + 4) % 7 }

  /** The Sunday among the last seven days of a month of 31 days. */
  ghost predicate IsLastSunday(day: int, year: int, month: int) {
    var c := CivilFromDays(day);
    Weekday(day) == 0 && c.year == year && c.month == month && 25 <= c.day <= 31
  }

  function LastSundayOf(year: int, month: int): int {
    var last := DaysFromCivil(Civil(year, month, 31));
    last - Weekday(last)
  }

  /** Minutes east of UTC that the rule gives the instant itself. */
  function EuOffset(instant: int): int {
    var year := CivilFromDays(instant / DAY).year;
    if LastSundayOf(year, 3) * DAY + 3600 <= instant < LastSundayOf(year, 10) * DAY + 3600 then 120 else 60
  }

  // ---- the code ----------------------------------------------------------------

  function LastSunday(year: nat, month: nat): Option<int> {
    match ParseDay(Padded(year, 4) + "-" + Padded(month, 2) + "-31")
    case Some(secs) => Some(secs / DAY - Weekday(secs / DAY))
    case None => None
  }

  /** Rust's signed integer parse of a short text: digits after an optional sign. */
  function ParseSigned(s: string): Option<int> {
    var sign := if |s| > 1 && s[0] == '-' then -1 else 1;
    var digits := if |s| > 1 && s[0] in {'+', '-'} then s[1..] else s;
    if digits != [] && AllDigits(digits) then Some(sign * NumberOf(digits)) else None
  }

  function MinuteOfDay(time: string): (minute: Option<int>)
    ensures minute.Some? ==> 0 <= minute.value < 1440 && |time| == 5 && time[2] == ':'
  {
    if |time| != 5 || time[2] != ':' || time[0] == ':' || time[1] == ':' then None
    else
      match (ParseSigned(time[..2]), ParseSigned(time[3..]))
      case (Some(h), Some(m)) => if 0 <= h < 24 && 0 <= m < 60 then Some(h * 60 + m) else None
      case _ => None
  }

  /** Offset of the wall clock on `day` at `minute`; `utc3` says that the city
      keeps UTC+3 all year. */
  function UtcOffsetMin(utc3: bool, day: int, minute: int): int {
    if utc3 then 180
    else
      var text := DayFromUnix(day * DAY)[..4];
      var year := if AllDigits(text) then NumberOf(text) else 1970;
      match (LastSunday(year, 3), LastSunday(year, 10))
      case (Some(spring), Some(autumn)) =>
        var asWinterUtc := day * DAY + minute * 60 - 3600;
        if spring * DAY + 3600 <= asWinterUtc < autumn * DAY + 3600 then 120 else 60
      case _ => 60
  }

  /** `duration` is the length the announcement's text names, when it names one. */
  function ScheduleOf(date: Option<string>, time: Option<string>, utc3: bool, duration: Option<int>): Option<Schedule> {
    if date.None? || time.None? then None
    else
      match (ParseDay(date.value), MinuteOfDay(time.value))
      case (Some(midnight), Some(minute)) =>
        var day := midnight / DAY;
        var offset := UtcOffsetMin(utc3, day, minute);
        var start := day * DAY + minute * 60 - offset * 60;
        var length := if duration.Some? then duration.value else DEFAULT_DURATION_MIN;
        Some(Schedule(start, start + length * 60, offset))
      case _ => None
  }

  /** A stamp with its closing letter replaced by an offset. */
  function WithOffset(text: string, offsetMin: int): string
    requires text != ""
  {
    var sign := if offsetMin < 0 then '-' else '+';
    var off := if offsetMin < 0 then -offsetMin else offsetMin;
    text[..|text| - 1] + [sign] + Padded(off / 60, 2) + ":" + Padded(off % 60, 2)
  }

  function LocalStamp(utc: int, offsetMin: int): string {
    var local := utc + offsetMin * 60;
    WithOffset(Rfc3339FromUnix(if local < 0 then 0 else local), offsetMin)
  }

  // ---- the last Sunday ----------------------------------------------------------

  lemma LastSundayOfIsLastSunday(year: int, month: int)
    requires month == 3 || month == 10
    ensures IsLastSunday(LastSundayOf(year, month), year, month)
    ensures forall day :: IsLastSunday(day, year, month) ==> day == LastSundayOf(year, month)
  {
    hide DaysFromCivil, CivilFromDays;
    var last := DaysFromCivil(Civil(year, month, 31));
    var back := Weekday(last);
    LastDays(year, month, 31 - back);
    CivilRoundTrip(Civil(year, month, 31 - back));
    SundayWithin(last, last - back);
    forall day | IsLastSunday(day, year, month) ensures day == LastSundayOf(year, month) {
      DaysRoundTrip(day);
      LastDays(year, month, CivilFromDays(day).day);
      SundayWithin(last, day);
    }
  }

  lemma LastDays(year: int, month: int, d: int)
    requires (month == 3 || month == 10) && 25 <= d <= 31
    ensures DaysFromCivil(Civil(year, month, d)) == DaysFromCivil(Civil(year, month, 31)) - (31 - d)
  {}

  /** Sundays are seven days apart, and 29 March 2026 is one: the last of its month. */
  lemma SundaysKnown(day: int)
    ensures Weekday(day) == 0 <==> (day - DaysFromCivil(Civil(2026, 3, 29))) % 7 == 0
    ensures LastSundayOf(2026, 3) == DaysFromCivil(Civil(2026, 3, 29))
  {
    DayCounted(Civil(2026, 3, 29), 5, 26, 28);
    DayCounted(Civil(2026, 3, 31), 5, 26, 30);
    hide DaysFromCivil;
    assert EraYearStart(26) == 9496;
  }

  /** Seven days in a row hold one Sunday. */
  lemma SundayWithin(last: int, day: int)
    requires last - 6 <= day <= last
    ensures Weekday(day) == 0 <==> day == last - Weekday(last)
  {}

  /** The text the code builds names a real day, and the last Sunday it finds is
      the Sunday of the month's last seven days, the only one. */
  lemma LastSundayExact(year: nat, month: nat)
    requires 1970 <= year <= 9999 && (month == 3 || month == 10)
    ensures LastSunday(year, month) == Some(LastSundayOf(year, month))
    ensures IsLastSunday(LastSundayOf(year, month), year, month)
    ensures forall day :: IsLastSunday(day, year, month) ==> day == LastSundayOf(year, month)
  {
    hide DaysFromCivil, CivilFromDays, ParseDay;
    var c := Civil(year, month, 31);
    assert Padded(31, 2) == "31" by { assert Decimal(31) == "31"; }
    assert DateText(c) == Padded(year, 4) + "-" + Padded(month, 2) + "-31";
    assert InSpan(c);
    DateWithinSpan(c);
    ParseDayAccepts(c);
    LastSundayOfIsLastSunday(year, month);
  }

  // ---- the offset is the one the rule gives the resulting instant -----------------

  /** No instant has a local time in this hour: clocks jump over it in spring. */
  predicate InSkippedHour(day: int, minute: int) {
    day == LastSundayOf(CivilFromDays(day).year, 3) && 120 <= minute < 180
  }

  predicate IsSummer(instant: int, year: int) {
    LastSundayOf(year, 3) * DAY + 3600 <= instant < LastSundayOf(year, 10) * DAY + 3600
  }

  lemma OffsetOfDay(day: int, minute: int)
    requires 0 <= day * DAY < SPAN_END
    ensures UtcOffsetMin(false, day, minute)
         == if IsSummer(day * DAY + minute * 60 - 3600, CivilFromDays(day).year) then 120 else 60
  {
    hide DaysFromCivil, CivilFromDays, LastSunday, LastSundayOf, DayFromUnix;
    var c := CivilFromDays(day);
    assert day * DAY / DAY == day;
    DayTextOfInstant(day * DAY);
    DateTextFields(c);
    assert DayFromUnix(day * DAY)[0..4] == DayFromUnix(day * DAY)[..4];
    LastSundayExact(c.year, 3);
    LastSundayExact(c.year, 10);
  }

  /** Summer time lies within its civil year, with months to spare. */
  lemma SummerWithinYear(day: int, year: int)
    requires CivilFromDays(day).year == year
    ensures CivilFromDays(day).month == 1 ==> day < LastSundayOf(year, 3)
    ensures CivilFromDays(day).month == 12 ==> day > LastSundayOf(year, 10)
    ensures LastSundayOf(year, 3) < LastSundayOf(year, 10)
  {
    hide DaysFromCivil, CivilFromDays, LastSundayOf;
    DaysRoundTrip(day);
    var c := CivilFromDays(day);
    LastSundayOfIsLastSunday(year, 3);
    LastSundayOfIsLastSunday(year, 10);
    var s, a := LastSundayOf(year, 3), LastSundayOf(year, 10);
    DaysRoundTrip(s);
    DaysRoundTrip(a);
    DaysMonotone(c, CivilFromDays(s));
    DaysMonotone(CivilFromDays(a), c);
    DaysMonotone(CivilFromDays(s), CivilFromDays(a));
  }

  lemma DayBefore(day: int)
    ensures var c, p := CivilFromDays(day), CivilFromDays(day - 1);
            p.year == c.year || (p.year == c.year - 1 && p.month == 12 && c.month == 1)
  {
    hide DaysFromCivil, CivilFromDays;
    var p := CivilFromDays(day - 1);
    DaysRoundTrip(day - 1);
    NextDayIsOneMore(p);
    CivilRoundTrip(NextDay(p));
  }

  /** The UTC instant computed for a Central European wall-clock time has, by the
      EU rule on that very instant, the offset it was computed with; the hour
      skipped in spring is the only exception. */
  lemma OffsetIsEuOffset(day: int, minute: int)
    requires 0 <= day * DAY < SPAN_END && 0 <= minute < 1440
    ensures var offset := UtcOffsetMin(false, day, minute);
            EuOffset(day * DAY + minute * 60 - offset * 60) == offset <==> !InSkippedHour(day, minute)
  {
    hide CivilFromDays, LastSundayOf, UtcOffsetMin;
    var year := CivilFromDays(day).year;
    var before := CivilFromDays(day - 1).year;
    OffsetOfDay(day, minute);
    SummerWithinYear(day, year);
    DayBefore(day);
    if before != year {
      SummerWithinYear(day - 1, before);
    }
    var offset := UtcOffsetMin(false, day, minute);
    var start := day * DAY + minute * 60 - offset * 60;
    StartDay(day, minute, offset);
    SkippedHour(day, minute, LastSundayOf(year, 3), LastSundayOf(year, 10));
    if minute < offset && before != year {
      WinterNight(day, minute, offset, LastSundayOf(year, 3), LastSundayOf(before, 10));
    }
  }

  lemma StartDay(day: int, minute: int, offset: int)
    requires 0 <= minute < 1440 && 0 < offset <= 180
    ensures (day * DAY + minute * 60 - offset * 60) / DAY == if minute >= offset then day else day - 1
  {}

  /** Reading a summer wall clock as winter time is an hour late, which matters
      in the hour after the clocks go forward. */
  lemma SkippedHour(day: int, minute: int, spring: int, autumn: int)
    requires 0 <= minute < 1440 && spring < autumn
    ensures var w := day * DAY + minute * 60 - 3600;
            var summer := spring * DAY + 3600 <= w < autumn * DAY + 3600;
            var start := if summer then w - 3600 else w;
            (spring * DAY + 3600 <= start < autumn * DAY + 3600) == summer
            <==> !(day == spring && 120 <= minute < 180)
  {
    if day != spring { OtherDay(day, minute, spring); }
  }

  lemma OtherDay(day: int, minute: int, other: int)
    requires 0 <= minute < 1440 && day != other
    ensures var w := day * DAY + minute * 60 - 3600;
            w >= other * DAY + 3600 ==> w >= other * DAY + 7200
  {}

  lemma WinterNight(day: int, minute: int, offset: int, spring: int, autumnBefore: int)
    requires 0 <= minute < offset <= 120 && day < spring && day - 1 > autumnBefore
    ensures day * DAY + minute * 60 - 3600 < spring * DAY + 3600
    ensures day * DAY + minute * 60 - offset * 60 >= autumnBefore * DAY + 3600
  {}

  lemma ParsedDayIsMidnight(date: string) returns (c: Civil)
    ensures InSpan(c) && 0 <= DaysFromCivil(c) * DAY < SPAN_END && DaysFromCivil(c) * DAY / DAY == DaysFromCivil(c)
    ensures ParseDay(date).Some? ==> date == DateText(c) && ParseDay(date) == Some(DaysFromCivil(c) * DAY)
  {
    hide DaysFromCivil, CivilFromDays, ParseDay;
    c := EPOCH;
    if ParseDay(date).Some? {
      ParseDayExact(date);
      c :| InSpan(c) && date == DateText(c);
    }
    DateWithinSpan(c);
  }

  // ---- printing it back ------------------------------------------------------------

  function HourMinute(minute: nat): string { Padded(minute / 60, 2) + ":" + Padded(minute % 60, 2) }

  lemma MinuteText(time: string)
    requires MinuteOfDay(time).Some?
    ensures HourMinute(MinuteOfDay(time).value) == time <==> AllDigits(time[..2]) && AllDigits(time[3..])
  {
    var minute := MinuteOfDay(time).value;
    var hh, mm := time[..2], time[3..];
    assert time == hh + ":" + mm;
    FieldWidth(minute / 60, 2);
    FieldWidth(minute % 60, 2);
    var a, b := Padded(minute / 60, 2), Padded(minute % 60, 2);
    if AllDigits(hh) && AllDigits(mm) {
      assert minute / 60 == NumberOf(hh) && minute % 60 == NumberOf(mm);
      NumberOfInjective(a, hh);
      NumberOfInjective(b, mm);
    }
    assert HourMinute(minute)[..2] == a && HourMinute(minute)[3..] == b;
  }

  /** A time written in two digits each is a time of day exactly when its hour is below 24
      and its minute below 60. */
  lemma DigitTimeExact(hh: string, mm: string)
    requires |hh| == 2 && |mm| == 2 && AllDigits(hh) && AllDigits(mm)
    ensures MinuteOfDay(hh + ":" + mm) ==
            if NumberOf(hh) < 24 && NumberOf(mm) < 60 then Some(NumberOf(hh) * 60 + NumberOf(mm)) else None
  {
    hide NumberOf, ParseSigned;
    var time := hh + ":" + mm;
    assert time[..2] == hh && time[3..] == mm;
    assert time[0] == hh[0] && time[1] == hh[1] && IsDigit(hh[0]) && IsDigit(hh[1]);
    DigitsParse(hh);
    DigitsParse(mm);
  }

  lemma DigitsParse(s: string)
    requires s != "" && AllDigits(s)
    ensures ParseSigned(s) == Some(NumberOf(s))
  {
    hide NumberOf;
    assert IsDigit(s[0]);
  }

  lemma StampText(text: string, offsetMin: int, shown: string)
    requires offsetMin in {60, 120, 180} && text == shown + "Z"
    ensures WithOffset(text, offsetMin) == shown + "+0" + [DigitChar(offsetMin / 60)] + ":00"
  {
    hide Padded;
    OffsetText(offsetMin / 60);
    assert text[..|text| - 1] == shown;
    Glued(shown, DigitChar(offsetMin / 60));
  }

  lemma Glued(shown: string, digit: char)
    ensures shown + ['+'] + ("0" + [digit]) + ":" + "00" == shown + "+0" + [digit] + ":00"
  {}

  lemma LocalInstant(c: Civil, minute: nat)
    requires InSpan(c) && minute < 1440
    ensures DaysFromCivil(c) >= 0
    ensures Rfc3339FromUnix(DaysFromCivil(c) * DAY + minute * 60) == DateText(c) + "T" + (HourMinute(minute) + ":00") + "Z"
  {
    hide DaysFromCivil, CivilFromDays, DateText, Padded;
    DateWithinSpan(c);
    var days := DaysFromCivil(c);
    InstantSplits(days, minute);
    ClockOfMinute(minute);
  }

  lemma InstantSplits(days: int, minute: nat)
    requires minute < 1440
    ensures (days * DAY + minute * 60) / DAY == days && (days * DAY + minute * 60) % DAY == minute * 60
  {}

  lemma ClockOfMinute(minute: nat)
    ensures ClockText(minute * 60) == HourMinute(minute) + ":00"
  {
    hide Padded;
    assert minute * 60 / 3600 == minute / 60 && minute * 60 % 3600 / 60 == minute % 60 && minute * 60 % 60 == 0;
    OffsetText(0);
  }

  lemma OffsetText(hours: nat)
    requires hours < 10
    ensures Padded(hours, 2) == "0" + [DigitChar(hours)] && Padded(0, 2) == "00"
  {
    assert Decimal(hours) == [DigitChar(hours)] && Decimal(0) == "0";
  }

  /** A sign slips through the hour and minute parse, so the stamp of such a time
      shows another text than the admin typed. */
  lemma SignedTimeIsAccepted(hour: nat, minute: nat)
    requires hour < 10 && minute < 60
    ensures var typed := "+" + [DigitChar(hour)] + ":" + Padded(minute, 2);
            && MinuteOfDay(typed) == Some(hour * 60 + minute)
            && HourMinute(hour * 60 + minute) != typed
  {
    hide NumberOf, Padded;
    var mm := Padded(minute, 2);
    var typed := "+" + [DigitChar(hour)] + ":" + mm;
    FieldWidth(minute, 2);
    assert typed[..2] == "+" + [DigitChar(hour)] && typed[..2][1..] == [DigitChar(hour)] && typed[3..] == mm;
    assert NumberOf([DigitChar(hour)]) == hour by {
      assert Decimal(hour) == [DigitChar(hour)];
      NumberOfDecimal(hour);
    }
    MinuteText(typed);
  }
}
